/** The production manager (`GestioneProduzione`): two registries, of
    machines and of warehouses, that are only ever appended to, and the
    dispatch of an order to the first idle machine. */
module Gestione {
  import opened Osservatori
  import opened Processi

  datatype Option<T> = None | Some(value: T)

  /** An order as the caller passes it. Dispatch never looks at it. */
  type Ordine = map<string, string>

  /** First-fit: the position of the first machine whose state is "fermo",
      if there is one. */
  function PrimoFermo(stati: seq<Stato>): (r: Option<nat>)
    ensures r.Some? ==> r.value < |stati| && stati[r.value] == Fermo
    ensures r.Some? ==> forall j :: 0 <= j < r.value ==> stati[j] != Fermo
    ensures r.None? <==> forall j :: 0 <= j < |stati| ==> stati[j] != Fermo
  {
    if stati == [] then None
    else if stati[0] == Fermo then Some(0)
    else match PrimoFermo(stati[1..])
      case None => None
      case Some(k) => Some(k + 1)
  }

  class GestioneProduzione {
    var macchine: seq<Macchina>
    var magazzini: seq<Magazzino>

    /** Distinct machines have distinct process objects, as distinct Python
        objects have distinct attributes. */
    ghost predicate Valid()
      reads this
    {
      forall i, j :: 0 <= i < |macchine| && 0 <= j < |macchine| && macchine[i].processo == macchine[j].processo
        ==> macchine[i] == macchine[j]
    }

    /** The states of the registered machines, in registration order. */
    ghost function Stati(): seq<Stato>
      reads this, set m | m in macchine :: m.processo
    {
      seq(|macchine|, i requires 0 <= i < |macchine| reads this, set m | m in macchine :: m.processo
        => macchine[i].processo.stato)
    }

    constructor ()
      ensures Valid() && macchine == [] && magazzini == []
    {
      macchine := [];
      magazzini := [];
    }

    method AggiungiMacchina(macchina: Macchina)
      requires Valid()
      requires forall j :: 0 <= j < |macchine| && macchine[j].processo == macchina.processo ==> macchine[j] == macchina
      modifies this`macchine
      ensures Valid()
      ensures macchine == old(macchine) + [macchina]
    {
      macchine := macchine + [macchina];
    }

    method AggiungiMagazzino(magazzino: Magazzino)
      modifies this`magazzini
      ensures magazzini == old(magazzini) + [magazzino]
    {
      magazzini := magazzini + [magazzino];
    }

    /** Runs the first machine, in registration order, whose state is
        "fermo", and returns its position; returns None, and changes
        nothing, when every machine is busy. Since a production cycle ends in
        "fermo", no machine's state is changed by a dispatch, so the next
        order goes to the same machine. */
    method GestisciOrdine(ordine: Ordine) returns (eseguita: Option<nat>)
      requires Valid()
      modifies set m | m in macchine, set m | m in macchine :: m.processo
      ensures eseguita == PrimoFermo(old(Stati()))
      ensures Stati() == old(Stati())
      ensures forall j :: 0 <= j < |macchine| ==> macchine[j].processo.observers == old(macchine[j].processo.observers)
      ensures forall j :: 0 <= j < |macchine| ==>
        macchine[j].produzioneAttuale == old(macchine[j].produzioneAttuale)
          + (if eseguita.Some? && macchine[j] == macchine[eseguita.value] then macchine[j].capacita else 0)
      ensures eseguita.Some? ==>
        var p := macchine[eseguita.value].processo;
        p.consegne == old(p.consegne) + DiffusioneTutti(p.observers, CicloMacchina(p.nome))
      ensures forall j :: 0 <= j < |macchine| && (eseguita.None? || macchine[j] != macchine[eseguita.value]) ==>
        unchanged(macchine[j]) && unchanged(macchine[j].processo)
    {
      eseguita := None;
      var i := 0;
      while i < |macchine|
        invariant 0 <= i <= |macchine|
        invariant forall j :: 0 <= j < i ==> macchine[j].processo.stato != Fermo
      {
        if macchine[i].processo.stato == Fermo {
          eseguita := Some(i);
          break;
        }
        i := i + 1;
      }
      ghost var stati := Stati();
      assert forall j :: 0 <= j < |macchine| ==> stati[j] == macchine[j].processo.stato;
      assert eseguita == PrimoFermo(stati);
      if eseguita.Some? {
        var scelta := macchine[eseguita.value];
        scelta.Esegui();
        forall j | 0 <= j < |macchine|
          ensures macchine[j].processo.stato == old(macchine[j].processo.stato)
        {
          if macchine[j] != scelta {
            assert macchine[j].processo != scelta.processo;
          }
        }
      }
    }
  }
}
