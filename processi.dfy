/** The production processes: `ProcessoProduttivo` with its observer list,
    and its two concrete kinds, `Macchina` and `Magazzino`.

    Python's subclassing becomes composition: a machine and a warehouse each
    own one `ProcessoProduttivo` object (`processo`) holding the name, the
    state, the observer list and the log of deliveries made so far. */
module Processi {
  import opened Osservatori
  import opened Inventario

  /** The lifecycle states a process goes through: "fermo", "lavoro",
      "controllo" and "pronto". */
  datatype Stato = Fermo | Lavoro | Controllo | Pronto

  class ProcessoProduttivo {
    const nome: string
    var stato: Stato
    var observers: seq<Osservatore>
    /** Every `aggiorna` call this process has made, oldest first. */
    ghost var consegne: seq<Consegna>

    constructor (nome: string)
      ensures this.nome == nome && stato == Fermo && observers == [] && consegne == []
    {
      this.nome := nome;
      stato := Fermo;
      observers := [];
      consegne := [];
    }

    /** Appends `o`, even when it is already registered. */
    method RegistraObserver(o: Osservatore)
      modifies this`observers
      ensures observers == old(observers) + [o]
    {
      observers := observers + [o];
    }

    /** Drops the first registration of `o`. When `o` is not registered,
        `list.remove` raises `ValueError`: the list stays as it was and the
        result is false. */
    method RimuoviObserver(o: Osservatore) returns (rimosso: bool)
      modifies this`observers
      ensures rimosso == (o in old(observers))
      ensures observers == RimuoviPrimo(old(observers), o)
    {
      rimosso := o in observers;
      observers := RimuoviPrimo(observers, o);
    }

    /** Hands `e` to every list entry, in list order. */
    method NotificaObservers(e: Evento)
      modifies this`consegne
      ensures consegne == old(consegne) + Diffusione(observers, e)
    {
      var i := 0;
      while i < |observers|
        invariant 0 <= i <= |observers|
        invariant consegne == old(consegne) + Diffusione(observers[..i], e)
      {
        DiffusioneAggiungi(observers[..i], observers[i], e);
        assert observers[..i + 1] == observers[..i] + [observers[i]];
        consegne := consegne + [Consegna(observers[i], e)];
        i := i + 1;
      }
      assert observers[..i] == observers;
    }
  }

  /** The two events of one production cycle, in the order they are sent. */
  function CicloMacchina(nome: string): seq<Evento>
  {
    [Evento(nome, AvvioProduzione), Evento(nome, ProduzioneCompletata)]
  }

  /** The events of an inventory check: a header, then one per entry in
      insertion order. */
  function Resoconto(nome: string, inv: seq<Voce>): seq<Evento>
  {
    [Evento(nome, ControlloInventario)]
      + seq(|inv|, i requires 0 <= i < |inv| => Evento(nome, VoceInventario(inv[i].tipo, inv[i].quantita)))
  }

  lemma ResocontoPasso(nome: string, inv: seq<Voce>, i: nat)
    requires i < |inv|
    ensures Resoconto(nome, inv[..i + 1])
      == Resoconto(nome, inv[..i]) + [Evento(nome, VoceInventario(inv[i].tipo, inv[i].quantita))]
  {
  }

  class Macchina {
    const processo: ProcessoProduttivo
    const capacita: int
    var produzioneAttuale: int

    constructor (nome: string, capacita: int)
      ensures fresh(processo)
      ensures processo.nome == nome && processo.stato == Fermo
      ensures processo.observers == [] && processo.consegne == []
      ensures this.capacita == capacita && produzioneAttuale == 0
    {
      processo := new ProcessoProduttivo(nome);
      this.capacita := capacita;
      produzioneAttuale := 0;
    }

    /** One production cycle: the machine goes to "lavoro", announces the
        start, adds its capacity to the output, announces completion and
        goes back to "fermo". */
    method Esegui()
      modifies this`produzioneAttuale, processo`stato, processo`consegne
      ensures produzioneAttuale == old(produzioneAttuale) + capacita
      ensures processo.stato == Fermo
      ensures processo.consegne == old(processo.consegne) + DiffusioneTutti(processo.observers, CicloMacchina(processo.nome))
    {
      processo.stato := Lavoro;
      processo.NotificaObservers(Evento(processo.nome, AvvioProduzione));
      produzioneAttuale := produzioneAttuale + capacita;
      processo.NotificaObservers(Evento(processo.nome, ProduzioneCompletata));
      processo.stato := Fermo;
      DiffusioneTuttiAggiungi(processo.observers, [], Evento(processo.nome, AvvioProduzione));
      DiffusioneTuttiAggiungi(processo.observers, [Evento(processo.nome, AvvioProduzione)], Evento(processo.nome, ProduzioneCompletata));
    }
  }

  class Magazzino {
    const processo: ProcessoProduttivo
    const capacitaMassima: int
    var inventario: seq<Voce>

    /** The inventory is a dictionary. */
    ghost predicate Valid()
      reads this
    {
      ChiaviUniche(inventario)
    }

    constructor (nome: string, capacitaMassima: int)
      ensures Valid() && fresh(processo)
      ensures processo.nome == nome && processo.stato == Fermo
      ensures processo.observers == [] && processo.consegne == []
      ensures this.capacitaMassima == capacitaMassima && inventario == []
      ensures capacitaMassima >= 0 ==> Somma(inventario) <= capacitaMassima
    {
      processo := new ProcessoProduttivo(nome);
      this.capacitaMassima := capacitaMassima;
      inventario := [];
    }

    /** Accepts the whole quantity or nothing: the material is stored and
        announced exactly when the new total stays within the capacity. */
    method RiceviMateriale(tipo: string, quantita: int) returns (ok: bool)
      requires Valid()
      modifies this`inventario, processo`consegne
      ensures Valid()
      ensures ok == Accetta(old(inventario), capacitaMassima, quantita)
      ensures inventario == Ricevi(old(inventario), capacitaMassima, tipo, quantita)
      ensures old(Somma(inventario)) <= capacitaMassima ==> Somma(inventario) <= capacitaMassima
      ensures processo.consegne == old(processo.consegne)
                + (if ok then Diffusione(processo.observers, Evento(processo.nome, RicevutoMateriale(tipo))) else [])
    {
      if Accetta(inventario, capacitaMassima, quantita) {
        inventario := Aggiorna(inventario, tipo, quantita);
        processo.NotificaObservers(Evento(processo.nome, RicevutoMateriale(tipo)));
        return true;
      }
      return false;
    }

    /** The inventory check: state "controllo", a header event, one event
        per entry in insertion order, then state "pronto". The inventory
        itself is only read. */
    method Esegui()
      modifies processo`stato, processo`consegne
      ensures processo.stato == Pronto
      ensures processo.consegne == old(processo.consegne) + DiffusioneTutti(processo.observers, Resoconto(processo.nome, inventario))
    {
      processo.stato := Controllo;
      NotificaResoconto();
      processo.stato := Pronto;
    }

    /** The notifications of an inventory check: the header, then one event
        per entry in insertion order. */
    method NotificaResoconto()
      modifies processo`consegne
      ensures processo.consegne == old(processo.consegne) + DiffusioneTutti(processo.observers, Resoconto(processo.nome, inventario))
    {
      var nome := processo.nome;
      ghost var observers := processo.observers;
      processo.NotificaObservers(Evento(nome, ControlloInventario));
      assert Resoconto(nome, inventario[..0]) == [] + [Evento(nome, ControlloInventario)];
      DiffusioneTuttiAggiungi(observers, [], Evento(nome, ControlloInventario));
      var i := 0;
      while i < |inventario|
        invariant 0 <= i <= |inventario|
        invariant processo.consegne == old(processo.consegne) + DiffusioneTutti(observers, Resoconto(nome, inventario[..i]))
      {
        var voce := Evento(nome, VoceInventario(inventario[i].tipo, inventario[i].quantita));
        processo.NotificaObservers(voce);
        ResocontoPasso(nome, inventario, i);
        DiffusioneTuttiAggiungi(observers, Resoconto(nome, inventario[..i]), voce);
        i := i + 1;
      }
      assert inventario[..i] == inventario;
    }
  }
}
