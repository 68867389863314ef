# Production process simulator, modelled in Dafny

This project models the core of a small production-floor simulator written
in Python. The simulator has three parts:

- production processes (`ProcessoProduttivo`). Each process keeps an ordered
  list of observers and notifies them of events.
- the two kinds of process. A machine (`Macchina`) runs production cycles. A
  warehouse (`Magazzino`) keeps a capacity-bounded inventory of materials.
- a production manager (`GestioneProduzione`). It registers machines and
  warehouses, and hands an order to the first idle machine.

The model keeps the Italian names of the source, in Dafny's PascalCase.

Files and modules:

- `osservatori.dfy`, module `Osservatori`. It holds the observer identities
  and the events. It also holds a delivery, one
  `aggiorna(evento)` call, and the functions that say which deliveries one
  notification makes and which events a given observer receives.
- `inventario.dfy`, module `Inventario`. The inventory dictionary is a
  sequence of `(tipo, quantita)` entries with distinct types, in insertion
  order. This module holds the dictionary update, the accept/reject rule of a
  material delivery, and the capacity invariant over any sequence of
  deliveries.
- `processi.dfy`, module `Processi`. It holds the process states and the
  classes `ProcessoProduttivo`, `Macchina` and `Magazzino`. Python's subclassing
  becomes composition: each machine and each warehouse owns one
  `ProcessoProduttivo` object (`processo`), which holds the name, the state,
  the observer list and a ghost log `consegne` of every delivery made so far.
- `gestione.dfy`, module `Gestione`. It holds the class `GestioneProduzione`
  and the first-fit rule `PrimoFermo`.
- `scenari.dfy`, module `Scenari`. Three client methods derive concrete
  outcomes from the contracts alone. In the first, two idle machines take two
  orders. In the second, a logger watches one production cycle. In the third,
  a warehouse of capacity 1000 receives 600 and then 500 units.

Observers are opaque identities. What their `aggiorna` does is not part of
the model: a notification is recorded as the list of deliveries it makes.
Events are a datatype `Evento(sorgente, messaggio)`, not formatted strings.
The five message kinds are start of production, production completed,
material received, inventory check header and one inventory line.
Process states are the datatype `Stato`, with the four values the source uses
as strings: `Fermo` ("fermo"), `Lavoro` ("lavoro"), `Controllo`
("controllo") and `Pronto` ("pronto").

## Model

| member | source | states |
|---|---|---|
| `Processi.ProcessoProduttivo.constructor` | production_process_simulator.py:12-16 | A new process has the given name, state "fermo", no observers and no deliveries. |
| `Processi.ProcessoProduttivo.RegistraObserver` | production_process_simulator.py:18-19 | The observer is appended at the end of the list, even when it is already registered. Nothing else changes. |
| `Processi.ProcessoProduttivo.RimuoviObserver` | production_process_simulator.py:21-22 | The list becomes `RimuoviPrimo` of the old list. The result is true exactly when the observer was registered. When it was not (Python raises `ValueError`), the list is unchanged. |
| `Osservatori.RimuoviPrimo` | production_process_simulator.py:21-22 | Removing an observer that is not registered leaves the list as it was. |
| `Osservatori.RimuoviPrimoMultiset` | production_process_simulator.py:21-22 | Removal takes away exactly one copy of the observer when it is present and nothing else: the multiset loses one copy and the length drops by one. |
| `Osservatori.RimuoviPrimoPosizione` | production_process_simulator.py:21-22 | Removal cuts out exactly the first occurrence: the result is `s[..i] + s[i+1..]` for the first `i` holding the observer, so the other entries keep their relative order. |
| `Processi.ProcessoProduttivo.NotificaObservers` | production_process_simulator.py:24-26 | The delivery log grows by one delivery of the event per list entry, in list order. The list and the state are unchanged. |
| `Osservatori.EventiPerDiffusione` | production_process_simulator.py:24-26 | One notification hands the event to an observer exactly as many times as that observer occurs in the list, so a duplicate registration gives a duplicate delivery. |
| `Osservatori.EventiPerDiffusioneTutti` | production_process_simulator.py:24-26 | Notifying a sequence of events hands each event to an observer in order, repeated once per registration of that observer. |
| `Osservatori.RegistratoUnaVolta` | production_process_simulator.py:24-26 | An observer registered once receives exactly the notified events, each once, in notification order. |
| `Osservatori.NonRegistrato` | production_process_simulator.py:24-26 | An observer that is not in the list receives nothing. |
| `Processi.Macchina.constructor` | production_process_simulator.py:34-37 | A new machine has a fresh process with the given name, state "fermo" and no observers. Its capacity is the given one and its output is 0. |
| `Processi.Macchina.Esegui` | production_process_simulator.py:39-49 | The output grows by exactly the capacity and the state ends as "fermo". Every observer entry receives "Avvio produzione" and then "Produzione completata". Nothing else of the machine changes. |
| `Processi.Magazzino.constructor` | production_process_simulator.py:53-56 | A new warehouse has a fresh process, the given capacity and an empty inventory. The total is within the capacity whenever the capacity is not negative. |
| `Processi.Magazzino.RiceviMateriale` | production_process_simulator.py:58-63 | The result is true exactly when the current total plus the quantity is at most the capacity. On true, the inventory becomes `Aggiorna` of the old one and every observer gets one "material received" event. On false, the inventory and the delivery log are unchanged. A total within the capacity stays within it. |
| `Inventario.Aggiorna` | production_process_simulator.py:60 | The quantity of the type grows by exactly the given amount and every other type keeps its quantity. An existing type keeps its position. A new type is appended last. The total grows by the amount, and distinct keys stay distinct. |
| `Inventario.Ricevi` | production_process_simulator.py:59-63 | A rejected delivery leaves the inventory as it was. An accepted one raises the total by exactly the quantity, and the new total is within the capacity. A total within the capacity stays within it, and distinct keys stay distinct. |
| `Inventario.CapacitaInvariante` | production_process_simulator.py:58-63 | If the total is within the capacity before any sequence of deliveries, it is within the capacity after all of them. Every prefix is itself a sequence, so this holds after every call. |
| `Inventario.ChiaviUnicheInvariante` | production_process_simulator.py:56-60 | Under any sequence of deliveries the inventory keeps one entry per material type. |
| `Processi.Magazzino.Esegui` | production_process_simulator.py:65-72 | The state ends as "pronto" and the inventory is only read. Every observer entry receives the "Controllo inventario" header and then one event per inventory entry, in insertion order, one more event than there are entries. |
| `Processi.Magazzino.NotificaResoconto` | production_process_simulator.py:67-70 | The delivery log grows by the header event and then one event per inventory entry, in insertion order, each handed to every observer entry. Only the log changes. |
| `Gestione.GestioneProduzione.constructor` | production_process_simulator.py:75-77 | Both registries start empty. |
| `Gestione.GestioneProduzione.AggiungiMacchina` | production_process_simulator.py:79-80 | The machine is appended to the machine registry. |
| `Gestione.GestioneProduzione.AggiungiMagazzino` | production_process_simulator.py:82-83 | The warehouse is appended to the warehouse registry. |
| `Gestione.PrimoFermo` | production_process_simulator.py:86-90 | First-fit: the result is the position of the first state equal to "fermo", with every earlier state different. It is None exactly when no state is "fermo". |
| `Gestione.GestioneProduzione.GestisciOrdine` | production_process_simulator.py:85-95 | The machine run is the first one, in registration order, whose state was "fermo". Only that machine's output grows, by its capacity, and only its observers are notified. All other machines are unchanged, and when no machine is idle nothing changes. No machine's state differs afterwards, so repeated orders go to the same machine. |

## Left out

- The observers' `aggiorna` callbacks (`LoggerProduzione` prints a timestamped line). They are foreign code and console I/O. A notification is modelled as the deliveries it makes, so a callback that changes the process it is called from is not modelled. The model assumes that every `aggiorna` call returns normally. A callback that raises is therefore not modelled: neither the error event it triggers nor a machine left in "lavoro".
- The `print` when no machine is idle. `GestisciOrdine` returns `None` instead; the returned position stands in for which machine ran.
- The `ordine` argument of `gestisci_ordine`. The source ignores it, and the model takes it as a map that it never reads.
- `tempo_ciclo`. It is a float that is stored and never read.
- The `except` branch of `Macchina.esegui` and its error message. Adding two Python integers cannot raise, so the branch runs only when an observer's `aggiorna` raises during the "Produzione completata" notification. Then the observers before it have already received that event, and the error event is sent to the observers in list order. If a callback raises again there, `esegui` exits with the state still "lavoro"; otherwise it ends as "fermo". A callback that raises during the "Avvio produzione" notification, which is outside the `try`, leaves `esegui` with the state still "lavoro", so `gestisci_ordine` never picks that machine again. Neither case is modelled, since callbacks are assumed to return normally.
- The `__main__` demonstration and the unused `random` import. Its set-ups appear as verified client methods in `scenari.dfy`.
- The abstract base classes `Observer` and `ProcessoProduttivo.esegui`. By design, the two concrete kinds are separate classes, and each holds its own `ProcessoProduttivo` object by composition.
- The state a process has while it notifies ("lavoro" or "controllo") is set as in the source. The delivery log does not record it, since the callbacks that could read it are not modelled.
- `Gestione.GestioneProduzione.AggiungiMacchina`: requires that the new machine does not share its `processo` object with another registered machine. In Python each machine's attributes belong to that machine alone. Composition makes the sharing expressible, so the model must exclude it.
- Names, capacities and the other attributes the core never reassigns are `const` fields. Python callers could reassign them.
