/** The snapshot types shared by the parser and the figure builder
    (src/models.py). Times are integer microseconds since the epoch. */
module Models {
  import opened Wrappers

  /** A committee ("valgroup") and a slot number: the key of every per-slot map. */
  type SlotKey = (string, nat)

  /** One slot of one committee (SlotData). */
  datatype Slot = Slot(
    group: string,
    slot: nat,
    isEmpty: bool,
    startEstimate: int,
    blockId: Option<string>,
    collator: Option<nat>)

  /** One observed or derived event (EventData): `name` is its label,
      `start` is `t_ms` and `end` is `t1_ms`. */
  datatype Event = Event(
    group: string,
    slot: nat,
    name: string,
    kind: string,
    start: int,
    end: Option<int>,
    validator: Option<nat>)

  /** The parser's result (ConsensusData). */
  datatype ConsensusData = ConsensusData(slots: seq<Slot>, events: seq<Event>)

  function KeyOfSlot(s: Slot): SlotKey { (s.group, s.slot) }

  function KeyOfEvent(e: Event): SlotKey { (e.group, e.slot) }
}
