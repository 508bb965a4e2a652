/** Baggage records, the partial updates applied to them, the case-insensitive
    keyed update of a record list, and audit entries. */
module Records {
  import opened Collections
  import opened Text

  /** The statuses a report can carry (the keys of the status select). */
  datatype Status =
    | Urgent
    | InProgress
    | Resolved
    | NeedsStaffReview
    | OutForDelivery
    | Delivered
    | FoundAwaitingClaim

  /** `IsConfirmedByPassenger` holds a boolean, or a string when the record
      was imported from a spreadsheet. */
  datatype Flag = BoolFlag(b: bool) | TextFlag(text: string)

  /** The flag reads as confirmed: the boolean `true` or the text `TRUE`. */
  predicate IsConfirmedFlag(f: Flag) {
    f == BoolFlag(true) || f == TextFlag("TRUE")
  }

  /** A history timestamp: an empty string, or a clock value in milliseconds. */
  datatype Stamp = Blank | At(ms: int)

  /** One of the three fixed history slots (`History_n_Timestamp`,
      `_Status`, `_Location`, `_Details`). */
  datatype Slot = Slot(at: Stamp, status: string, location: string, details: string)

  const EmptySlot := Slot(Blank, "", "", "")

  datatype Record = Record(
    pir: string,
    passengerName: string,
    flight: string,
    status: Status,
    lastUpdate: int,
    currentLocation: string,
    origin: string,
    destination: string,
    nextStep: string,
    estimatedArrival: string,
    history1: Slot,
    history2: Slot,
    history3: Slot,
    confirmed: Flag)

  /** The fields a `Partial<BaggageRecord>` sets in one history slot. */
  datatype SlotPatch = SlotPatch(
    at: Option<Stamp>,
    status: Option<string>,
    location: Option<string>,
    details: Option<string>)

  /** `Partial<BaggageRecord>`: `Some` for every field the update carries. */
  datatype Patch = Patch(
    pir: Option<string>,
    passengerName: Option<string>,
    flight: Option<string>,
    status: Option<Status>,
    lastUpdate: Option<int>,
    currentLocation: Option<string>,
    origin: Option<string>,
    destination: Option<string>,
    nextStep: Option<string>,
    estimatedArrival: Option<string>,
    history1: SlotPatch,
    history2: SlotPatch,
    history3: SlotPatch,
    confirmed: Option<Flag>)

  const KeepSlot := SlotPatch(None, None, None, None)

  /** The empty update `{}`. */
  const Keep := Patch(None, None, None, None, None, None, None, None, None, None,
                      KeepSlot, KeepSlot, KeepSlot, None)

  function Pick<T>(update: Option<T>, current: T): T {
    if update.Some? then update.value else current
  }

  function MergeSlot(s: Slot, p: SlotPatch): Slot {
    Slot(Pick(p.at, s.at), Pick(p.status, s.status), Pick(p.location, s.location),
         Pick(p.details, s.details))
  }

  /** The shallow merge `{ ...record, ...updates }`: each field the update
      carries replaces the record's, every other field is kept. */
  function Merge(r: Record, p: Patch): Record {
    Record(
      Pick(p.pir, r.pir),
      Pick(p.passengerName, r.passengerName),
      Pick(p.flight, r.flight),
      Pick(p.status, r.status),
      Pick(p.lastUpdate, r.lastUpdate),
      Pick(p.currentLocation, r.currentLocation),
      Pick(p.origin, r.origin),
      Pick(p.destination, r.destination),
      Pick(p.nextStep, r.nextStep),
      Pick(p.estimatedArrival, r.estimatedArrival),
      MergeSlot(r.history1, p.history1),
      MergeSlot(r.history2, p.history2),
      MergeSlot(r.history3, p.history3),
      Pick(p.confirmed, r.confirmed))
  }

  /** Merging the empty update is the identity. */
  lemma MergeKeep(r: Record)
    ensures Merge(r, Keep) == r
  {
  }

  /** Merging the same update a second time changes nothing. */
  lemma MergeIdempotent(r: Record, p: Patch)
    ensures Merge(Merge(r, p), p) == Merge(r, p)
  {
  }

  /** Two merges in a row equal one merge of the combined update in which the
      later update wins (last writer wins). */
  function Then(first: Patch, second: Patch): Patch {
    Patch(
      if second.pir.Some? then second.pir else first.pir,
      if second.passengerName.Some? then second.passengerName else first.passengerName,
      if second.flight.Some? then second.flight else first.flight,
      if second.status.Some? then second.status else first.status,
      if second.lastUpdate.Some? then second.lastUpdate else first.lastUpdate,
      if second.currentLocation.Some? then second.currentLocation else first.currentLocation,
      if second.origin.Some? then second.origin else first.origin,
      if second.destination.Some? then second.destination else first.destination,
      if second.nextStep.Some? then second.nextStep else first.nextStep,
      if second.estimatedArrival.Some? then second.estimatedArrival else first.estimatedArrival,
      ThenSlot(first.history1, second.history1),
      ThenSlot(first.history2, second.history2),
      ThenSlot(first.history3, second.history3),
      if second.confirmed.Some? then second.confirmed else first.confirmed)
  }

  function ThenSlot(first: SlotPatch, second: SlotPatch): SlotPatch {
    SlotPatch(
      if second.at.Some? then second.at else first.at,
      if second.status.Some? then second.status else first.status,
      if second.location.Some? then second.location else first.location,
      if second.details.Some? then second.details else first.details)
  }

  lemma MergeThen(r: Record, first: Patch, second: Patch)
    ensures Merge(Merge(r, first), second) == Merge(r, Then(first, second))
  {
  }

  /** The record's PIR matches `key` ignoring case. */
  predicate KeyMatches(r: Record, key: string) {
    Upper(r.pir) == Upper(key)
  }

  /** The first record whose PIR matches `key`, or -1. */
  function IndexOfKey(rs: seq<Record>, key: string): int {
    FirstIndex(rs, (r: Record) => KeyMatches(r, key))
  }

  /** The keyed update of a record list: the first record whose PIR matches
      `key` ignoring case becomes `{ ...record, ...updates }`; every other entry
      stays as it was, and with no match the list is unchanged. */
  function UpdateFirst(rs: seq<Record>, key: string, p: Patch): (out: seq<Record>)
    ensures |out| == |rs|
    ensures (forall j :: 0 <= j < |rs| ==> !KeyMatches(rs[j], key)) ==> out == rs
    ensures forall j :: 0 <= j < |rs| ==>
      out[j] == if KeyMatches(rs[j], key) && (forall k :: 0 <= k < j ==> !KeyMatches(rs[k], key))
                then Merge(rs[j], p) else rs[j]
  {
    var i := IndexOfKey(rs, key);
    if i < 0 then rs else rs[i := Merge(rs[i], p)]
  }

  /** The update leaves the record's key as it was (it carries no PIR, or one
      equal to the key ignoring case). */
  predicate KeepsKey(p: Patch, key: string) {
    p.pir.None? || Upper(p.pir.value) == Upper(key)
  }

  /** No two records share a PIR ignoring case. */
  predicate UniqueKeys(rs: seq<Record>) {
    forall i, j :: 0 <= i < j < |rs| ==> Upper(rs[i].pir) != Upper(rs[j].pir)
  }

  /** Applying the same keyed update twice gives the list applying it once
      gives, as long as the update does not move the record to another key or
      the keys are unique. */
  lemma UpdateFirstIdempotent(rs: seq<Record>, key: string, p: Patch)
    requires KeepsKey(p, key) || UniqueKeys(rs)
    ensures UpdateFirst(UpdateFirst(rs, key, p), key, p) == UpdateFirst(rs, key, p)
  {
    var once := UpdateFirst(rs, key, p);
    var i := IndexOfKey(rs, key);
    if i >= 0 {
      var pin := (r: Record) => KeyMatches(r, key);
      if KeyMatches(once[i], key) {
        assert forall j :: 0 <= j < i ==> once[j] == rs[j];
        FirstIndexUnique(once, pin, i);
        MergeIdempotent(rs[i], p);
        assert UpdateFirst(once, key, p) == once[i := Merge(once[i], p)];
      } else {
        assert UniqueKeys(rs);
        assert forall j :: 0 <= j < |once| && j != i ==> !KeyMatches(once[j], key);
        FirstIndexUnique(once, pin, -1);
      }
    }
  }

  /** A renaming update applied twice to a list holding the same PIR twice
      reaches a second record, so idempotence needs one of the two conditions
      above. */
  lemma RenameTwiceReachesSecondRecord(r: Record)
    requires r.pir == "A"
    ensures var p := Keep.(pir := Some("B"));
            UpdateFirst(UpdateFirst([r, r], "A", p), "A", p) != UpdateFirst([r, r], "A", p)
  {
    var p := Keep.(pir := Some("B"));
    assert Upper("A") == "A";
    assert Upper("B") == "B";
    var once := UpdateFirst([r, r], "A", p);
    assert once[0].pir == "B" && once[1] == r;
    assert UpdateFirst(once, "A", p)[1].pir == "B";
  }

  /** The readiness thresholds shared by the staff handover form and the
      passenger claim form, on `length` in UTF-16 code units. */
  predicate SecurityFieldsReady(recipientName: string, idNumber: string, phone: string,
                                contents: string) {
    Utf16Length(recipientName) > 5 && Utf16Length(idNumber) > 5
    && Utf16Length(phone) > 8 && Utf16Length(contents) > 5
  }

  datatype Category = Security | Operations

  datatype Outcome = Success | Failure

  /** An entry of the append-only audit log. The handlers pass no timestamp;
      the model stamps each entry with the handler's clock in place of
      whatever the log context records. */
  datatype AuditEntry = AuditEntry(
    user: string,
    category: Category,
    action: string,
    details: string,
    status: Outcome,
    timestamp: int)
}
