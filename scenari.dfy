/** Clients of the model: what a caller can conclude from the contracts
    alone, on small concrete set-ups. */
module Scenari {
  import opened Osservatori
  import opened Inventario
  import opened Processi
  import opened Gestione

  /** Two idle machines: every order runs the first one registered, and the
      second one never moves. */
  method DueMacchine()
  {
    var gestione := new GestioneProduzione();
    var m1 := new Macchina("Macchina 1", 100);
    var m2 := new Macchina("Macchina 2", 150);
    gestione.AggiungiMacchina(m1);
    gestione.AggiungiMacchina(m2);
    assert gestione.Stati() == [Fermo, Fermo];

    var eseguita := gestione.GestisciOrdine(map[]);
    assert eseguita == Some(0);
    assert m1.produzioneAttuale == 100 && m2.produzioneAttuale == 0;

    eseguita := gestione.GestisciOrdine(map[]);
    assert eseguita == Some(0);
    assert m1.produzioneAttuale == 200 && m2.produzioneAttuale == 0;
  }

  /** A logger registered once on a machine sees one cycle as its start
      followed by its completion. */
  method CicloConLogger()
  {
    var m := new Macchina("Macchina 1", 100);
    var logger := Osservatore(0);
    m.processo.RegistraObserver(logger);
    assert m.processo.consegne == [] && m.processo.observers == [logger];
    m.Esegui();
    assert m.processo.observers == [logger];
    assert m.processo.consegne == DiffusioneTutti([logger], CicloMacchina("Macchina 1"));
    RegistratoUnaVolta([logger], CicloMacchina("Macchina 1"), logger);
    assert EventiPer(m.processo.consegne, logger)
      == [Evento("Macchina 1", AvvioProduzione), Evento("Macchina 1", ProduzioneCompletata)];
  }

  /** A warehouse of capacity 1000 takes 600 units of steel, refuses 500
      more, and reports the one entry it holds. */
  method Acciaio()
  {
    var magazzino := new Magazzino("Magazzino Materie Prime", 1000);
    var logger := Osservatore(0);
    magazzino.processo.RegistraObserver(logger);

    var ok := magazzino.RiceviMateriale("acciaio", 600);
    assert ok && magazzino.inventario == [Voce("acciaio", 600)];
    ok := magazzino.RiceviMateriale("acciaio", 500);
    assert !ok && magazzino.inventario == [Voce("acciaio", 600)];
    assert magazzino.processo.observers == [logger];

    ghost var prima := magazzino.processo.consegne;
    magazzino.Esegui();
    assert magazzino.processo.stato == Pronto;
    assert magazzino.processo.consegne
      == prima + DiffusioneTutti([logger], Resoconto("Magazzino Materie Prime", [Voce("acciaio", 600)]));
  }
}
