/** Events, observers and the order in which a production process delivers
    events to its observers (the observer half of `ProcessoProduttivo`).

    An observer is an opaque identity: what its `aggiorna` callback does is
    outside the model, so a notification is recorded as a delivery, the pair
    of the observer and the event it was handed. */
module Osservatori {

  /** Identity of an observer object. Two list entries with the same value
      are the same observer registered twice. */
  datatype Osservatore = Osservatore(id: nat)

  /** What an event says, one alternative per message the processes emit. */
  datatype Messaggio =
    | AvvioProduzione
    | ProduzioneCompletata
    | RicevutoMateriale(tipo: string)
    | ControlloInventario
    | VoceInventario(tipo: string, quantita: int)

  /** An event: the name of the process that emits it and its message. */
  datatype Evento = Evento(sorgente: string, messaggio: Messaggio)

  /** One call of `observer.aggiorna(evento)`. */
  datatype Consegna = Consegna(osservatore: Osservatore, evento: Evento)

  /** The deliveries one notification makes: one per list entry, in list
      order, duplicates included. */
  function Diffusione(observers: seq<Osservatore>, e: Evento): seq<Consegna>
  {
    seq(|observers|, i requires 0 <= i < |observers| => Consegna(observers[i], e))
  }

  /** The deliveries of notifying every event of `eventi`, one after the other. */
  function DiffusioneTutti(observers: seq<Osservatore>, eventi: seq<Evento>): seq<Consegna>
  {
    if eventi == [] then []
    else DiffusioneTutti(observers, eventi[..|eventi| - 1]) + Diffusione(observers, eventi[|eventi| - 1])
  }

  /** The events a delivery log hands to observer `o`, in delivery order. */
  function EventiPer(log: seq<Consegna>, o: Osservatore): seq<Evento>
  {
    if log == [] then []
    else
      var c := log[|log| - 1];
      EventiPer(log[..|log| - 1], o) + (if c.osservatore == o then [c.evento] else [])
  }

  /** `k` copies of `e`. */
  function Ripeti(e: Evento, k: nat): seq<Evento>
  {
    seq(k, _ => e)
  }

  /** Every event of `eventi`, each repeated `k` times in place. */
  function Ripetuti(eventi: seq<Evento>, k: nat): seq<Evento>
  {
    if eventi == [] then []
    else Ripetuti(eventi[..|eventi| - 1], k) + Ripeti(eventi[|eventi| - 1], k)
  }

  /** `list.remove(o)`: drops the first occurrence of `o`, if there is one. */
  function RimuoviPrimo(s: seq<Osservatore>, o: Osservatore): (r: seq<Osservatore>)
    ensures o !in s ==> r == s
  {
    if s == [] then []
    else if s[0] == o then s[1..]
    else [s[0]] + RimuoviPrimo(s[1..], o)
  }

  /** Removing `o` takes away exactly one of its registrations when there is
      one, and nothing else. */
  lemma {:induction false} RimuoviPrimoMultiset(s: seq<Osservatore>, o: Osservatore)
    ensures multiset(RimuoviPrimo(s, o)) == multiset(s) - multiset{o}
    ensures |RimuoviPrimo(s, o)| == if o in s then |s| - 1 else |s|
  {
    if s != [] {
      assert s == [s[0]] + s[1..];
      RimuoviPrimoMultiset(s[1..], o);
    }
  }

  /** Removing `o` cuts the list at its first occurrence and keeps the other
      entries in their relative order. */
  lemma {:induction false} RimuoviPrimoPosizione(s: seq<Osservatore>, o: Osservatore, i: nat)
    requires i < |s| && s[i] == o
    requires forall k :: 0 <= k < i ==> s[k] != o
    ensures RimuoviPrimo(s, o) == s[..i] + s[i + 1..]
  {
    if i > 0 {
      var t := s[1..];
      RimuoviPrimoPosizione(t, o, i - 1);
      calc {
        RimuoviPrimo(s, o);
        [s[0]] + RimuoviPrimo(t, o);
        [s[0]] + (t[..i - 1] + t[i..]);
        { assert [s[0]] + t[..i - 1] == s[..i]; assert t[i..] == s[i + 1..]; }
        s[..i] + s[i + 1..];
      }
    }
  }

  lemma DiffusioneAggiungi(observers: seq<Osservatore>, x: Osservatore, e: Evento)
    ensures Diffusione(observers + [x], e) == Diffusione(observers, e) + [Consegna(x, e)]
  {
  }

  lemma EventiPerAggiungi(log: seq<Consegna>, c: Consegna, o: Osservatore)
    ensures EventiPer(log + [c], o) == EventiPer(log, o) + (if c.osservatore == o then [c.evento] else [])
  {
    assert (log + [c])[..|log|] == log;
  }

  lemma DiffusioneTuttiAggiungi(observers: seq<Osservatore>, eventi: seq<Evento>, e: Evento)
    ensures DiffusioneTutti(observers, eventi + [e]) == DiffusioneTutti(observers, eventi) + Diffusione(observers, e)
  {
    assert (eventi + [e])[..|eventi|] == eventi;
  }

  /** Splitting a log splits what each observer receives. */
  lemma {:induction false} EventiPerConcat(a: seq<Consegna>, b: seq<Consegna>, o: Osservatore)
    ensures EventiPer(a + b, o) == EventiPer(a, o) + EventiPer(b, o)
  {
    if b != [] {
      var c := b[|b| - 1];
      var b' := b[..|b| - 1];
      assert b == b' + [c];
      assert a + b == (a + b') + [c];
      EventiPerConcat(a, b', o);
      EventiPerAggiungi(a + b', c, o);
      EventiPerAggiungi(b', c, o);
    } else {
      assert a + b == a;
    }
  }

  /** One notification hands `e` to `o` exactly as many times as `o` is in
      the list: once per registration, none once it is removed. */
  lemma {:induction false} EventiPerDiffusione(observers: seq<Osservatore>, e: Evento, o: Osservatore)
    ensures EventiPer(Diffusione(observers, e), o) == Ripeti(e, multiset(observers)[o])
  {
    if observers == [] {
      assert Diffusione(observers, e) == [];
    } else {
      var x := observers[|observers| - 1];
      var p: seq<Osservatore> := observers[..|observers| - 1];
      assert observers == p + [x];
      DiffusioneAggiungi(p, x, e);
      EventiPerAggiungi(Diffusione(p, e), Consegna(x, e), o);
      EventiPerDiffusione(p, e, o);
      assert multiset(observers)[o] == multiset(p)[o] + (if x == o then 1 else 0);
      if x == o {
        assert Ripeti(e, multiset(p)[o] + 1) == Ripeti(e, multiset(p)[o]) + [e];
      }
    }
  }

  /** Notifying a sequence of events hands each of them to `o`, in order,
      once per registration of `o`. */
  lemma {:induction false} EventiPerDiffusioneTutti(observers: seq<Osservatore>, eventi: seq<Evento>, o: Osservatore)
    ensures EventiPer(DiffusioneTutti(observers, eventi), o) == Ripetuti(eventi, multiset(observers)[o])
  {
    if eventi != [] {
      var e := eventi[|eventi| - 1];
      var p := eventi[..|eventi| - 1];
      EventiPerDiffusioneTutti(observers, p, o);
      EventiPerConcat(DiffusioneTutti(observers, p), Diffusione(observers, e), o);
      EventiPerDiffusione(observers, e, o);
    }
  }

  lemma {:induction false} RipetutiUno(eventi: seq<Evento>)
    ensures Ripetuti(eventi, 1) == eventi
  {
    if eventi != [] {
      RipetutiUno(eventi[..|eventi| - 1]);
      assert Ripeti(eventi[|eventi| - 1], 1) == [eventi[|eventi| - 1]];
      assert eventi == eventi[..|eventi| - 1] + [eventi[|eventi| - 1]];
    }
  }

  lemma {:induction false} RipetutiZero(eventi: seq<Evento>)
    ensures Ripetuti(eventi, 0) == []
  {
    if eventi != [] {
      RipetutiZero(eventi[..|eventi| - 1]);
    }
  }

  /** An observer registered once receives every event of the sequence
      exactly once, in the order they were notified. */
  lemma RegistratoUnaVolta(observers: seq<Osservatore>, eventi: seq<Evento>, o: Osservatore)
    requires multiset(observers)[o] == 1
    ensures EventiPer(DiffusioneTutti(observers, eventi), o) == eventi
  {
    EventiPerDiffusioneTutti(observers, eventi, o);
    RipetutiUno(eventi);
  }

  /** An observer that is not in the list receives nothing. */
  lemma NonRegistrato(observers: seq<Osservatore>, eventi: seq<Evento>, o: Osservatore)
    requires o !in observers
    ensures EventiPer(DiffusioneTutti(observers, eventi), o) == []
  {
    EventiPerDiffusioneTutti(observers, eventi, o);
    RipetutiZero(eventi);
  }
}
