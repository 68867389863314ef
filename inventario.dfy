/** The inventory of a warehouse (`Magazzino.inventario`): a dictionary from
    material type to quantity. Python dictionaries iterate in insertion
    order, so the dictionary is a sequence of entries with distinct types, a
    new type going at the end and an existing one keeping its place. */
module Inventario {

  /** One dictionary entry, `tipo: quantita`. */
  datatype Voce = Voce(tipo: string, quantita: int)

  /** One call `ricevi_materiale(tipo, quantita)`. */
  datatype Richiesta = Richiesta(tipo: string, quantita: int)

  /** The keys, in insertion order. */
  function Tipi(inv: seq<Voce>): seq<string>
  {
    if inv == [] then [] else [inv[0].tipo] + Tipi(inv[1..])
  }

  /** No type appears twice: the sequence is a dictionary. */
  predicate ChiaviUniche(inv: seq<Voce>)
  {
    inv == [] || (inv[0].tipo !in Tipi(inv[1..]) && ChiaviUniche(inv[1..]))
  }

  /** `sum(inventario.values())`. */
  function Somma(inv: seq<Voce>): int
  {
    if inv == [] then 0 else inv[0].quantita + Somma(inv[1..])
  }

  /** `inventario.get(tipo, 0)`. */
  function Quantita(inv: seq<Voce>, tipo: string): int
  {
    if inv == [] then 0
    else if inv[0].tipo == tipo then inv[0].quantita
    else Quantita(inv[1..], tipo)
  }

  /** `inventario[tipo] = inventario.get(tipo, 0) + quantita`. */
  function Aggiorna(inv: seq<Voce>, tipo: string, quantita: int): (r: seq<Voce>)
    ensures Quantita(r, tipo) == Quantita(inv, tipo) + quantita
    ensures forall t :: t != tipo ==> Quantita(r, t) == Quantita(inv, t)
    ensures tipo in Tipi(inv) ==> Tipi(r) == Tipi(inv)
    ensures tipo !in Tipi(inv) ==> r == inv + [Voce(tipo, quantita)] && Tipi(r) == Tipi(inv) + [tipo]
    ensures Somma(r) == Somma(inv) + quantita
    ensures ChiaviUniche(inv) ==> ChiaviUniche(r)
  {
    if inv == [] then [Voce(tipo, quantita)]
    else if inv[0].tipo == tipo then
      var r := [Voce(tipo, inv[0].quantita + quantita)] + inv[1..];
      assert r[1..] == inv[1..];
      r
    else
      var resto := Aggiorna(inv[1..], tipo, quantita);
      var r := [inv[0]] + resto;
      assert r[1..] == resto;
      assert inv == [inv[0]] + inv[1..];
      r
  }

  /** The decision of `ricevi_materiale`: the material is accepted exactly
      when the new total stays within the capacity. */
  predicate Accetta(inv: seq<Voce>, capacitaMassima: int, quantita: int)
  {
    Somma(inv) + quantita <= capacitaMassima
  }

  /** The inventory after `ricevi_materiale(tipo, quantita)`: updated when
      accepted, untouched when rejected. */
  function Ricevi(inv: seq<Voce>, capacitaMassima: int, tipo: string, quantita: int): (r: seq<Voce>)
    ensures !Accetta(inv, capacitaMassima, quantita) ==> r == inv
    ensures Accetta(inv, capacitaMassima, quantita) ==> Somma(r) == Somma(inv) + quantita <= capacitaMassima
    ensures Somma(inv) <= capacitaMassima ==> Somma(r) <= capacitaMassima
    ensures ChiaviUniche(inv) ==> ChiaviUniche(r)
  {
    if Accetta(inv, capacitaMassima, quantita) then Aggiorna(inv, tipo, quantita) else inv
  }

  /** The inventory after the calls of `richieste`, in order. */
  function RiceviTutti(inv: seq<Voce>, capacitaMassima: int, richieste: seq<Richiesta>): seq<Voce>
  {
    if richieste == [] then inv
    else
      var ultima := richieste[|richieste| - 1];
      Ricevi(RiceviTutti(inv, capacitaMassima, richieste[..|richieste| - 1]), capacitaMassima, ultima.tipo, ultima.quantita)
  }

  /** The capacity bound is an invariant of `ricevi_materiale`: once the
      total is within the capacity, no sequence of calls takes it over. Since
      every prefix of a sequence of calls is itself one, the bound holds after
      every call. */
  lemma {:induction false} CapacitaInvariante(inv: seq<Voce>, capacitaMassima: int, richieste: seq<Richiesta>)
    requires Somma(inv) <= capacitaMassima
    ensures Somma(RiceviTutti(inv, capacitaMassima, richieste)) <= capacitaMassima
  {
    if richieste != [] {
      CapacitaInvariante(inv, capacitaMassima, richieste[..|richieste| - 1]);
    }
  }

  /** A dictionary stays a dictionary under any sequence of calls. */
  lemma {:induction false} ChiaviUnicheInvariante(inv: seq<Voce>, capacitaMassima: int, richieste: seq<Richiesta>)
    requires ChiaviUniche(inv)
    ensures ChiaviUniche(RiceviTutti(inv, capacitaMassima, richieste))
  {
    if richieste != [] {
      ChiaviUnicheInvariante(inv, capacitaMassima, richieste[..|richieste| - 1]);
    }
  }
}
