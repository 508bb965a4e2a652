/** The staff report view: the security handover protocol that moves a record
    to Delivered, and the manual status select. */
module ReportDetail {
  import opened Collections
  import opened Text
  import opened Records
  import opened WorldTracer
  import opened Contexts

  /** What the handover protocol form collects. */
  datatype HandoverForm = HandoverForm(
    recipientName: string,
    idType: string,
    idNumber: string,
    phone: string,
    contentAns: string,
    marksAns: string)

  const EmptyHandoverForm := HandoverForm("", "National ID", "", "", "", "")

  /** `isReady`: the completion button is enabled exactly when this holds. */
  predicate IsReady(d: HandoverForm) {
    SecurityFieldsReady(d.recipientName, d.idNumber, d.phone, d.contentAns)
  }

  /** The thresholds are strict (name, id number and contents longer than 5,
      phone longer than 8); the id type and the marks answer play no part. */
  lemma ReadinessThresholds(d: HandoverForm, idType: string, marksAns: string)
    ensures IsReady(d) <==> Utf16Length(d.recipientName) >= 6 && Utf16Length(d.idNumber) >= 6
                            && Utf16Length(d.phone) >= 9 && Utf16Length(d.contentAns) >= 6
    ensures IsReady(d) == IsReady(d.(idType := idType, marksAns := marksAns))
    ensures !IsReady(EmptyHandoverForm)
  {
  }

  /** Lengths count UTF-16 code units, so three emoji are enough contents. */
  lemma EmojiContentsAreReady()
    ensures IsReady(HandoverForm("Recipient", "National ID", "ID123456", "123456789",
                                 "\U{1F381}\U{1F381}\U{1F381}", ""))
  {
    AstralCharactersCountTwice();
  }

  const HandoverHistoryStatus := "تسليم أمني موثق (SGS Handover)"

  /** The pieces of the history text written on handover. */
  function HandoverDetailsParts(d: HandoverForm): seq<string> {
    ["تم التسليم للمستلم: ", d.recipientName, ". الهوية: ", d.idType, " (", d.idNumber,
     "). الجوال: ", d.phone, ". إفادة المحتويات: ", d.contentAns, "."]
  }

  function HandoverDetails(d: HandoverForm): string {
    Concat(HandoverDetailsParts(d))
  }

  /** The handover history text names the recipient, the id type and number,
      the phone and the stated contents. */
  lemma HandoverDetailsMention(d: HandoverForm)
    ensures var s := HandoverDetails(d);
      Contains(s, d.recipientName) && Contains(s, d.idType) && Contains(s, d.idNumber)
      && Contains(s, d.phone) && Contains(s, d.contentAns)
  {
    var parts := HandoverDetailsParts(d);
    ConcatContainsPart(parts, 1);
    ConcatContainsPart(parts, 3);
    ConcatContainsPart(parts, 5);
    ConcatContainsPart(parts, 7);
    ConcatContainsPart(parts, 9);
  }

  /** The update written on handover; `rec` is the record loaded in the view. */
  function HandoverPatch(rec: Record, d: HandoverForm, now: nat): Patch {
    Keep.(status := Some(Delivered),
          lastUpdate := Some(now),
          confirmed := Some(BoolFlag(true)),
          history1 := SlotPatch(Some(At(now)), Some(HandoverHistoryStatus),
                                Some(rec.currentLocation), Some(HandoverDetails(d))))
  }

  /** Whatever stored record the handover update lands on becomes Delivered
      and confirmed, stamped with the time, with slot 1 overwritten by the
      handover entry at the viewed record's location; every other field,
      slots 2 and 3 included, is kept. */
  lemma HandoverPatchEffect(r: Record, rec: Record, d: HandoverForm, now: nat)
    ensures var m := Merge(r, HandoverPatch(rec, d, now));
      && m.status == Delivered && m.lastUpdate == now && m.confirmed == BoolFlag(true)
      && m.history1 == Slot(At(now), HandoverHistoryStatus, rec.currentLocation, HandoverDetails(d))
      && m.(status := r.status, lastUpdate := r.lastUpdate, confirmed := r.confirmed,
            history1 := r.history1) == r
  {
  }

  const HandoverOfficer := "SGS Operation Officer"
  const HandoverAction := "إتمام تسليم أمني نهائي"

  function HandoverAuditDetailsParts(pir: string, d: HandoverForm): seq<string> {
    ["الحقيبة: ", pir, ". تم التسليم للمستلم: ", d.recipientName, " بعد التحقق من الهوية (",
     d.idNumber, ")."]
  }

  /** The audit entry appended on handover. */
  function HandoverAudit(pir: string, d: HandoverForm, now: nat): AuditEntry {
    AuditEntry(HandoverOfficer, Security, HandoverAction,
               Concat(HandoverAuditDetailsParts(pir, d)), Success, now)
  }

  /** The handover audit entry is a successful Security entry by the
      operation officer that names the PIR, the recipient and the id number. */
  lemma HandoverAuditMentions(pir: string, d: HandoverForm, now: nat)
    ensures var e := HandoverAudit(pir, d, now);
      && e.category == Security && e.status == Success && e.user == "SGS Operation Officer"
      && Contains(e.details, pir) && Contains(e.details, d.recipientName)
      && Contains(e.details, d.idNumber)
  {
    var parts := HandoverAuditDetailsParts(pir, d);
    ConcatContainsPart(parts, 1);
    ConcatContainsPart(parts, 3);
    ConcatContainsPart(parts, 5);
  }

  /** `statusText`: the label shown for each status. */
  function StatusText(s: Status): string {
    match s
    case Urgent => "عاجل"
    case InProgress => "قيد المتابعة"
    case Resolved => "تم الحل"
    case NeedsStaffReview => "تحتاج مراجعة"
    case OutForDelivery => "خرجت للتوصيل"
    case Delivered => "تم التسليم"
    case FoundAwaitingClaim => "معثور عليها"
  }

  /** The statuses the select offers, in the order of `statusText`'s entries. */
  const SelectableStatuses: seq<Status> :=
    [Urgent, InProgress, Resolved, NeedsStaffReview, OutForDelivery, Delivered, FoundAwaitingClaim]

  /** The select offers every status once, and no two statuses share a label. */
  lemma StatusSelectIsComplete(a: Status, b: Status)
    ensures a in SelectableStatuses
    ensures forall i, j :: 0 <= i < j < |SelectableStatuses| ==> SelectableStatuses[i] != SelectableStatuses[j]
    ensures a != b ==> StatusText(a) != StatusText(b)
  {
    if a != b {
      var x, y := StatusText(a), StatusText(b);
      if |x| == |y| && |x| == 12 {
        assert x[0] != y[0];
      }
    }
  }

  /** `recordFromContext`: the first stored record whose PIR matches the
      report's ignoring case. */
  function RecordFromContext(records: seq<Record>, pir: string): (r: Option<Record>)
    ensures r.Some? ==> r.value in records && KeyMatches(r.value, pir)
    ensures r.Some? ==> exists i :: 0 <= i < |records| && records[i] == r.value
                                    && forall j :: 0 <= j < i ==> !KeyMatches(records[j], pir)
    ensures r.None? ==> forall j :: 0 <= j < |records| ==> !KeyMatches(records[j], pir)
  {
    Find(records, (x: Record) => KeyMatches(x, pir))
  }

  /** The report the view was opened on. */
  datatype Report = Report(pir: string, status: Status)

  class ReportDetailModal {
    const report: Report
    var detailedRecord: Option<Record>
    var currentStatus: Status
    var isLoading: bool
    var showSecurityProtocol: bool
    var closed: bool

    constructor (report: Report)
      ensures this.report == report && currentStatus == report.status
      ensures detailedRecord == None && isLoading && !showSecurityProtocol && !closed
    {
      this.report := report;
      detailedRecord := None;
      currentStatus := report.status;
      isLoading := true;
      showSecurityProtocol := false;
      closed := false;
    }

    /** `canHandover`: the handover is offered unless the view shows Delivered. */
    predicate CanHandover()
      reads this
    {
      currentStatus != Delivered
    }

    /** The details effect: the record comes from the store for spreadsheet
        data and from the gateway otherwise; a found record is shown and its
        status adopted. */
    method LoadDetails(ctx: Contexts, gateway: Gateway, stored: StoredConfig, now: nat,
                       transport: Transport)
      returns (fetched: Option<Record>)
      modifies this
      ensures ctx.dataSource == Excel ==> fetched == RecordFromContext(ctx.records, report.pir)
      ensures ctx.dataSource != Excel ==>
        var live := IntegrationConfig(stored).isConnected && Answered(transport)
                    && transport.body.value.RecordObject?
                    && transport.body.value.pirField != "";
        fetched == if live then Some(transport.body.value.record)
                   else Find(gateway.cache, (r: Record) => Upper(r.pir) == Upper(Trim(report.pir)))
      ensures ctx.dataSource != Excel && !IntegrationConfig(stored).isConnected ==>
        fetched == Find(gateway.cache, (r: Record) => Upper(r.pir) == Upper(Trim(report.pir)))
      ensures detailedRecord == (if fetched.Some? then fetched else old(detailedRecord))
      ensures currentStatus == (if fetched.Some? then fetched.value.status else old(currentStatus))
      ensures !isLoading && showSecurityProtocol == old(showSecurityProtocol) && closed == old(closed)
    {
      if ctx.dataSource == Excel {
        fetched := RecordFromContext(ctx.records, report.pir);
      } else {
        fetched := gateway.FindBaggageByPir(stored, report.pir, now, transport);
      }
      if fetched.Some? {
        detailedRecord := fetched;
        currentStatus := fetched.value.status;
      }
      isLoading := false;
    }

    /** The button that opens the protocol, shown while the handover is offered. */
    method StartHandover()
      modifies this
      ensures showSecurityProtocol == (old(showSecurityProtocol) || old(CanHandover()))
      ensures detailedRecord == old(detailedRecord) && currentStatus == old(currentStatus)
      ensures closed == old(closed) && isLoading == old(isLoading)
    {
      if CanHandover() && !showSecurityProtocol {
        showSecurityProtocol := true;
      }
    }

    method CancelHandover()
      modifies this
      ensures !showSecurityProtocol
      ensures detailedRecord == old(detailedRecord) && currentStatus == old(currentStatus)
      ensures closed == old(closed) && isLoading == old(isLoading)
    {
      showSecurityProtocol := false;
    }

    /** `handleSecurityHandoverComplete`: with a loaded record, the store
        update to Delivered is made first and the Security audit entry is
        appended after it; without one nothing happens. */
    method CompleteHandover(ctx: Contexts, d: HandoverForm, now: nat)
      modifies this, ctx
      ensures old(detailedRecord).None? ==> unchanged(this) && unchanged(ctx)
      ensures old(detailedRecord).Some? ==>
        var rec := old(detailedRecord).value;
        && ctx.records == UpdateFirst(old(ctx.records), rec.pir, HandoverPatch(rec, d, now))
        && ctx.auditLogs == old(ctx.auditLogs) + [HandoverAudit(rec.pir, d, now)]
        && ctx.calls == old(ctx.calls) + [StoreUpdate(rec.pir, HandoverPatch(rec, d, now)),
                                          AuditAppend(HandoverAudit(rec.pir, d, now))]
        && currentStatus == Delivered && !showSecurityProtocol && closed
        && detailedRecord == old(detailedRecord) && isLoading == old(isLoading)
      ensures ctx.users == old(ctx.users) && ctx.wtConfig == old(ctx.wtConfig)
      ensures ctx.dataSource == old(ctx.dataSource)
    {
      if detailedRecord.None? {
        return;
      }
      var rec := detailedRecord.value;
      var pir := rec.pir;
      ctx.UpdateBaggageRecord(pir, HandoverPatch(rec, d, now));
      ctx.AddAuditLog(HandoverAudit(pir, d, now));
      currentStatus := Delivered;
      showSecurityProtocol := false;
      closed := true;
    }

    /** A click on the completion button: it is rendered only while the
        protocol is open and the handover offered, and enabled only when the
        form is ready; an enabled click completes the handover, which does
        nothing without a loaded record. Once the view shows Delivered a click
        changes nothing, so no second audit entry can be written. */
    method ClickComplete(ctx: Contexts, d: HandoverForm, now: nat)
      modifies this, ctx
      ensures !(old(showSecurityProtocol) && old(CanHandover()) && IsReady(d)) ==>
        unchanged(this) && unchanged(ctx)
      ensures old(detailedRecord).None? ==> unchanged(this) && unchanged(ctx)
      ensures old(currentStatus) == Delivered ==> unchanged(this) && unchanged(ctx)
      ensures old(showSecurityProtocol) && old(CanHandover()) && IsReady(d)
              && old(detailedRecord).Some? ==>
        var rec := old(detailedRecord).value;
        && ctx.records == UpdateFirst(old(ctx.records), rec.pir, HandoverPatch(rec, d, now))
        && ctx.auditLogs == old(ctx.auditLogs) + [HandoverAudit(rec.pir, d, now)]
        && ctx.calls == old(ctx.calls) + [StoreUpdate(rec.pir, HandoverPatch(rec, d, now)),
                                          AuditAppend(HandoverAudit(rec.pir, d, now))]
        && currentStatus == Delivered && !showSecurityProtocol && closed
        && detailedRecord == old(detailedRecord) && isLoading == old(isLoading)
      ensures ctx.users == old(ctx.users) && ctx.wtConfig == old(ctx.wtConfig)
      ensures ctx.dataSource == old(ctx.dataSource)
    {
      if showSecurityProtocol && CanHandover() && IsReady(d) {
        CompleteHandover(ctx, d, now);
      }
    }

    /** The status select's `onChange`, rendered while the protocol is closed:
        the view adopts the chosen status and the store gets only Status and
        LastUpdate for the report's PIR. No history slot is written, no audit
        entry is made, and leaving Delivered is not refused. */
    method SelectStatus(ctx: Contexts, newStatus: Status, now: nat)
      modifies this, ctx
      ensures old(showSecurityProtocol) ==> unchanged(this) && unchanged(ctx)
      ensures !old(showSecurityProtocol) ==>
        && currentStatus == newStatus
        && ctx.records == UpdateFirst(old(ctx.records), report.pir,
                                      Keep.(status := Some(newStatus), lastUpdate := Some(now)))
        && ctx.calls == old(ctx.calls)
             + [StoreUpdate(report.pir, Keep.(status := Some(newStatus), lastUpdate := Some(now)))]
        && ctx.auditLogs == old(ctx.auditLogs)
        && detailedRecord == old(detailedRecord) && showSecurityProtocol == old(showSecurityProtocol)
        && isLoading == old(isLoading) && closed == old(closed)
      ensures ctx.users == old(ctx.users) && ctx.wtConfig == old(ctx.wtConfig)
      ensures ctx.dataSource == old(ctx.dataSource)
    {
      if showSecurityProtocol {
        return;
      }
      currentStatus := newStatus;
      ctx.UpdateBaggageRecord(report.pir, Keep.(status := Some(newStatus), lastUpdate := Some(now)));
    }
  }

  /** The manual status update touches Status and LastUpdate and nothing else,
      whatever the current status is: a Delivered record can be moved back. */
  lemma ManualStatusEffect(r: Record, s: Status, now: nat)
    ensures Merge(r, Keep.(status := Some(s), lastUpdate := Some(now)))
         == r.(status := s, lastUpdate := now)
    ensures Merge(r, Keep.(status := Some(s), lastUpdate := Some(now))).history1 == r.history1
  {
  }
}
