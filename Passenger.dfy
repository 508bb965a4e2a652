/** The passenger self-service view: identification, the pool of found bags,
    description filtering, the self-claim and the status notifications. */
module Passenger {
  import opened Collections
  import opened Text
  import opened Records
  import opened Contexts
  import ReportDetail

  /** The identification types the form offers. */
  datatype IdKind = PirId | TagId | FlightId | NameId

  /** `IdentificationForm.handleSubmit`: flight identification joins the
      flight number and the last name with `|`; every other type submits the
      identifier as typed. */
  function SubmittedIdentifier(kind: IdKind, identifier: string, lastName: string): string {
    if kind == FlightId then identifier + "|" + lastName else identifier
  }

  /** The text before the first `|`, or the whole id when it has none. */
  function DisplayId(id: string): (d: string)
    ensures '|' !in d
    ensures d <= id
    ensures d == id || (|d| < |id| && id[|d|] == '|')
  {
    var i := FirstIndex(id, (c: char) => c == '|');
    if i < 0 then id
    else
      assert forall j :: 0 <= j < i ==> id[..i][j] == id[j];
      id[..i]
  }

  /** The displayed id recovers the identifier typed into the form, for every
      id type, as long as that identifier holds no `|`. */
  lemma DisplayIdRecoversIdentifier(kind: IdKind, identifier: string, lastName: string)
    requires '|' !in identifier
    ensures DisplayId(SubmittedIdentifier(kind, identifier, lastName)) == identifier
    ensures kind == FlightId ==>
      SubmittedIdentifier(kind, identifier, lastName)[|identifier| + 1..] == lastName
  {
    var s := SubmittedIdentifier(kind, identifier, lastName);
    var d := DisplayId(s);
    if kind == FlightId {
      assert s[..|identifier|] == identifier && s[|identifier|] == '|';
      assert d == s[..|d|];
    }
  }

  /** The candidate pool: the store records found and awaiting claim, in
      order. */
  function FoundPool(records: seq<Record>): (pool: seq<Record>)
    ensures IsSubsequence(pool, records)
    ensures forall r :: r in pool <==> r in records && r.status == FoundAwaitingClaim
  {
    FilterSpec(records, (r: Record) => r.status == FoundAwaitingClaim);
    Filter(records, (r: Record) => r.status == FoundAwaitingClaim)
  }

  datatype Lang = Ar | En

  /** The security form of the claim. */
  datatype SecurityData = SecurityData(
    recipientName: string,
    idNumber: string,
    phoneNumber: string,
    contentAnswer: string,
    marksAnswer: string)

  const EmptySecurityData := SecurityData("", "", "", "", "")

  /** `isSecurityFormReady`. */
  predicate IsSecurityFormReady(d: SecurityData) {
    SecurityFieldsReady(d.recipientName, d.idNumber, d.phoneNumber, d.contentAnswer)
  }

  /** The claim button is enabled under exactly the thresholds of the staff
      handover form. */
  lemma ClaimReadinessMatchesHandover(d: SecurityData, idType: string)
    ensures IsSecurityFormReady(d) <==>
      ReportDetail.IsReady(ReportDetail.HandoverForm(d.recipientName, idType, d.idNumber,
                                                     d.phoneNumber, d.contentAnswer, d.marksAnswer))
    ensures IsSecurityFormReady(d) <==> Utf16Length(d.recipientName) >= 6
                                        && Utf16Length(d.idNumber) >= 6
                                        && Utf16Length(d.phoneNumber) >= 9
                                        && Utf16Length(d.contentAnswer) >= 6
  {
  }

  /** The language-dependent texts a claim writes into the record: two
      entries of the view's translation table and the two halves of the
      pick-up instruction around the location. */
  datatype Phrases = Phrases(
    confirmationEvent: string,
    confirmationDetails: string,
    pickupLead: string,
    pickupTail: string)

  /** The texts for each language. */
  function PhrasesFor(lang: Lang): Phrases {
    if lang == Ar then
      Phrases("تأكيد ملكية الراكب",
              "قام الراكب بمعاينة الصور والبيانات وتأكيد أن هذه هي حقيبته الشخصية عبر النظام الذكي.",
              "يرجى التوجه إلى ",
              " لاستلام حقيبتك. نحن بانتظارك في الشركة السعودية للخدمات الأرضية (SGS).")
    else
      Phrases("Passenger Confirmed Ownership",
              "The passenger inspected visual data and confirmed this is their personal bag via the smart system.",
              "Please proceed to ",
              " to collect your bag. Saudi Ground Services (SGS) team is waiting for you.")
  }

  /** The pick-up instruction written to `NextStep`. */
  function PickupText(t: Phrases, location: string): string {
    Concat([t.pickupLead, location, t.pickupTail])
  }

  function ClaimDetailsParts(t: Phrases, d: SecurityData): seq<string> {
    [t.confirmationDetails, ". [التوثيق الأمني]: المستلم: ", d.recipientName, ", الهوية: ",
     d.idNumber, "."]
  }

  /** The update written by a self-claim of `record`. */
  function ClaimPatch(record: Record, d: SecurityData, t: Phrases, now: nat): Patch {
    Keep.(confirmed := Some(BoolFlag(true)),
          status := Some(InProgress),
          lastUpdate := Some(now),
          nextStep := Some(PickupText(t, record.currentLocation)),
          history1 := SlotPatch(Some(At(now)), Some(t.confirmationEvent),
                                Some(record.currentLocation),
                                Some(Concat(ClaimDetailsParts(t, d)))))
  }

  /** The stored record a self-claim lands on becomes confirmed and In
      Progress at the time of the claim, its next step sends the passenger to
      the claimed bag's location, slot 1 records the claim with the
      recipient's name and id number, and nothing else changes. */
  lemma ClaimPatchEffect(r: Record, record: Record, d: SecurityData, t: Phrases, now: nat)
    ensures var m := Merge(r, ClaimPatch(record, d, t, now));
      && m.confirmed == BoolFlag(true) && m.status == InProgress && m.lastUpdate == now
      && m.history1.at == At(now) && m.history1.location == record.currentLocation
      && m.(confirmed := r.confirmed, status := r.status, lastUpdate := r.lastUpdate,
            nextStep := r.nextStep, history1 := r.history1) == r
  {
  }

  lemma ClaimTextsMention(record: Record, d: SecurityData, t: Phrases, now: nat)
    ensures var p := ClaimPatch(record, d, t, now);
      && Contains(p.nextStep.value, record.currentLocation)
      && Contains(p.history1.details.value, d.recipientName) && Contains(p.history1.details.value, d.idNumber)
  {
    var pickup := [t.pickupLead, record.currentLocation, t.pickupTail];
    var details := ClaimDetailsParts(t, d);
    ConcatContainsPart(pickup, 1);
    ConcatContainsPart(details, 2);
    ConcatContainsPart(details, 4);
  }

  const SelfServiceUser := "Passenger (Self-service)"

  function ClaimAuditParts(pir: string, d: SecurityData): seq<string> {
    ["الحقيبة: ", pir, ". المستلم: ", d.recipientName,
     ". تم تأكيد الأسئلة الأمنية والمطابقة البصرية."]
  }

  /** The audit entry of a self-claim; `||` falls back on an empty name. */
  function ClaimAudit(pir: string, d: SecurityData, now: nat): AuditEntry {
    AuditEntry(if d.recipientName == "" then SelfServiceUser else d.recipientName,
               Security, "مصادقة أمنية للحقيبة", Concat(ClaimAuditParts(pir, d)), Success, now)
  }

  /** The claim's audit entry is a successful Security entry naming the PIR
      and the recipient, made by the recipient, or by the self-service user
      when no name was given. */
  lemma ClaimAuditFacts(pir: string, d: SecurityData, now: nat)
    ensures var e := ClaimAudit(pir, d, now);
      && e.category == Security && e.status == Success
      && (d.recipientName != "" ==> e.user == d.recipientName)
      && (d.recipientName == "" ==> e.user == "Passenger (Self-service)")
      && Contains(e.details, pir) && Contains(e.details, d.recipientName)
  {
    ConcatContainsPart(ClaimAuditParts(pir, d), 1);
    ConcatContainsPart(ClaimAuditParts(pir, d), 3);
  }

  /** What the timeline shows of a record. */
  datatype Info = Info(
    pir: string,
    status: Status,
    currentLocation: string,
    nextStep: string,
    isConfirmedByPassenger: bool)

  /** `recordToBaggageInfo`, on the fields this model follows. */
  function InfoOf(r: Record): Info {
    Info(r.pir, r.status, r.currentLocation, r.nextStep, IsConfirmedFlag(r.confirmed))
  }

  /** The timeline info shown after a claim: built from the claimed record
      merged with the claim's update, then marked confirmed with the pick-up
      instruction as next step. It names the claimed PIR and location, In
      Progress. */
  function ClaimedInfo(record: Record, d: SecurityData, t: Phrases, now: nat): (info: Info)
    ensures info == Info(record.pir, InProgress, record.currentLocation,
                         PickupText(t, record.currentLocation), true)
  {
    ClaimPatchEffect(record, record, d, t, now);
    var info := InfoOf(Merge(record, ClaimPatch(record, d, t, now)));
    info.(isConfirmedByPassenger := true, nextStep := PickupText(t, record.currentLocation))
  }

  datatype Sender = UserSender | BotSender

  /** What a chat message says, in place of its localized text. */
  datatype Says =
    | UserText(text: string)
    | NotFound(displayId: string)
    | FilterFound(count: nat, query: string)
    | FilterNoMatch(query: string)
    | PromptIdentify
    | AssistantError(detail: string)
    | BotReply(text: string)
    | MyBaggage(pir: string)

  datatype Message = Message(id: int, sender: Sender, says: Says)

  /** The outcome of a call into the assistant service. */
  datatype Oracle<T> = Returned(value: T) | Threw(message: string)

  datatype NoticeKind = SuccessNotice | UrgentNotice | InfoNotice

  datatype NoticeBody = DeliveredNotice | StatusChanged(pir: string, status: Status)

  datatype Notification = Notification(id: string, body: NoticeBody, kind: NoticeKind,
                                       timestamp: int)

  /** The notification kind of a new status. */
  function KindOf(s: Status): (k: NoticeKind)
    ensures k == SuccessNotice <==> s == Delivered
    ensures k == UrgentNotice <==> s == Urgent
    ensures k == InfoNotice <==> s != Delivered && s != Urgent
  {
    if s == Delivered then SuccessNotice else if s == Urgent then UrgentNotice else InfoNotice
  }

  function NoticeFor(r: Record, now: nat): Notification {
    Notification(NatToString(now),
                 if r.status == Delivered then DeliveredNotice else StatusChanged(r.pir, r.status),
                 KindOf(r.status), now)
  }

  /** `activeRecord`: the first stored record whose PIR equals the
      authenticated PIR exactly (case matters here); an empty PIR counts as
      none, as `!authPir` does. */
  function ActiveRecord(authPir: Option<string>, records: seq<Record>): (r: Option<Record>)
    ensures r.Some? ==> authPir.Some? && authPir.value != "" && r.value in records
                        && r.value.pir == authPir.value
    ensures r.Some? ==> exists i :: 0 <= i < |records| && records[i] == r.value
                                    && forall j :: 0 <= j < i ==> records[j].pir != authPir.value
    ensures r.None? ==> authPir.None? || authPir.value == ""
                        || forall j :: 0 <= j < |records| ==> records[j].pir != authPir.value
  {
    if authPir.None? || authPir.value == "" then None
    else Find(records, (x: Record) => x.pir == authPir.value)
  }

  /** The gallery headings. */
  datatype Title = FilteringTitle(query: string) | WarehouseTitle | FoundGalleryTitle

  /** `getGalleryTitle`. */
  function GalleryTitle(isFiltering: bool, lastFilterQuery: string, displayMatches: seq<Record>,
                        allFoundBags: seq<Record>): Title {
    if isFiltering then FilteringTitle(lastFilterQuery)
    else if |displayMatches| == |allFoundBags| then WarehouseTitle
    else FoundGalleryTitle
  }

  /** Dismissing a notification keeps, in order, exactly the notifications
      with another id. */
  lemma DismissRemovesExactly(ns: seq<Notification>, id: string)
    ensures IsSubsequence(Filter(ns, (n: Notification) => n.id != id), ns)
    ensures forall n :: n in Filter(ns, (n: Notification) => n.id != id) <==> n in ns && n.id != id
  {
    FilterSpec(ns, (n: Notification) => n.id != id);
  }

  class PassengerSession {
    /** The texts of the chosen language, `PhrasesFor(lang)`. */
    const phrases: Phrases
    var isAuthenticated: bool
    var authPir: Option<string>
    var messages: seq<Message>
    var notifications: seq<Notification>
    var baggageInfo: Option<Info>
    var allFoundBags: seq<Record>
    var displayMatches: seq<Record>
    var isFiltering: bool
    var previewBag: Option<Record>
    var lastFilterQuery: string
    var showSecurityForm: bool
    var securityData: SecurityData

    constructor (phrases: Phrases)
      ensures this.phrases == phrases && !isAuthenticated && authPir == None && messages == []
      ensures notifications == [] && baggageInfo == None && allFoundBags == []
      ensures displayMatches == [] && !isFiltering && previewBag == None
      ensures lastFilterQuery == "" && !showSecurityForm && securityData == EmptySecurityData
    {
      this.phrases := phrases;
      isAuthenticated := false;
      authPir := None;
      messages := [];
      notifications := [];
      baggageInfo := None;
      allFoundBags := [];
      displayMatches := [];
      isFiltering := false;
      previewBag := None;
      lastFilterQuery := "";
      showSecurityForm := false;
      securityData := EmptySecurityData;
    }

    /** `handleIdentify`, given the record lookup's outcome and the greeting
        the assistant builds for a found record. With no record the pool is
        displayed with a not-found message naming the displayed id; with one,
        its PIR becomes the authenticated PIR and nothing is displayed. */
    method Identify(records: seq<Record>, id: string, lookup: Oracle<Option<Record>>,
                    greeting: string, now: nat)
      modifies this
      ensures isAuthenticated
      ensures lookup.Threw? ==>
        unchanged(this`authPir, this`messages, this`baggageInfo, this`allFoundBags, this`displayMatches)
      ensures lookup.Returned? ==> allFoundBags == FoundPool(records)
      ensures lookup.Returned? && lookup.value.None? ==>
        && displayMatches == FoundPool(records)
        && messages == [Message(now, BotSender, NotFound(DisplayId(id)))]
        && authPir == old(authPir) && baggageInfo == old(baggageInfo)
      ensures lookup.Returned? && lookup.value.Some? ==>
        && authPir == Some(lookup.value.value.pir)
        && baggageInfo == Some(InfoOf(lookup.value.value))
        && messages == [Message(1, BotSender, BotReply(greeting))]
        && displayMatches == []
      ensures unchanged(this`notifications, this`isFiltering, this`previewBag, this`lastFilterQuery,
                        this`showSecurityForm, this`securityData)
    {
      isAuthenticated := true;
      if lookup.Threw? {
        return;
      }
      var foundBags := FoundPool(records);
      allFoundBags := foundBags;
      match lookup.value {
        case None =>
          displayMatches := foundBags;
          messages := [Message(now, BotSender, NotFound(DisplayId(id)))];
        case Some(record) =>
          authPir := Some(record.pir);
          baggageInfo := Some(InfoOf(record));
          messages := [Message(1, BotSender, BotReply(greeting))];
          displayMatches := [];
      }
    }

    /** The bot's side of `handleSendMessage` for a text that is not blank,
        given the outcomes of the description matcher and of the assistant's
        reply. Before a record is known and while the pool is not empty the
        text filters the pool: the matches are displayed, or the whole pool
        when there are none; a failing matcher leaves the filter running. */
    method Respond(text: string, matcher: Oracle<seq<Record>>, reply: Oracle<string>)
      returns (says: Says)
      modifies this`isFiltering, this`lastFilterQuery, this`displayMatches
      ensures baggageInfo.None? && |allFoundBags| > 0 ==>
        lastFilterQuery == text && (
        match matcher
        case Threw(m) =>
          isFiltering && displayMatches == old(displayMatches) && says == AssistantError(m)
        case Returned(matches) =>
          && !isFiltering
          && displayMatches == (if |matches| > 0 then matches else allFoundBags)
          && says == (if |matches| > 0 then FilterFound(|matches|, text) else FilterNoMatch(text)))
      ensures baggageInfo.None? && |allFoundBags| > 0 ==>
        GalleryTitle(isFiltering, lastFilterQuery, displayMatches, allFoundBags)
          == match matcher
             case Threw(_) => FilteringTitle(text)
             case Returned(matches) =>
               if |matches| == 0 || |matches| == |allFoundBags| then WarehouseTitle
               else FoundGalleryTitle
      ensures baggageInfo.Some? ==>
        && says == (if reply.Returned? then BotReply(reply.value) else AssistantError(reply.message))
        && unchanged(this`isFiltering, this`lastFilterQuery, this`displayMatches)
      ensures baggageInfo.None? && |allFoundBags| == 0 ==>
        says == PromptIdentify && unchanged(this`isFiltering, this`lastFilterQuery, this`displayMatches)
    {
      if baggageInfo.None? && |allFoundBags| > 0 {
        isFiltering := true;
        lastFilterQuery := text;
        match matcher {
          case Threw(m) =>
            says := AssistantError(m);
          case Returned(matches) =>
            if |matches| > 0 {
              displayMatches := matches;
              says := FilterFound(|matches|, text);
            } else {
              displayMatches := allFoundBags;
              says := FilterNoMatch(text);
            }
            isFiltering := false;
        }
      } else if baggageInfo.Some? {
        says := if reply.Returned? then BotReply(reply.value) else AssistantError(reply.message);
      } else {
        says := PromptIdentify;
      }
    }

    /** `handleSendMessage`: a blank text is ignored and `answer` is `None`;
        any other text is added to the chat followed by what the bot says back
        (see `Respond`). */
    method SendMessage(text: string, now: nat, matcher: Oracle<seq<Record>>, reply: Oracle<string>)
      returns (answer: Option<Says>)
      modifies this`messages, this`isFiltering, this`lastFilterQuery, this`displayMatches
      ensures answer.None? <==> IsBlank(text)
      ensures answer.None? ==>
        unchanged(this`messages, this`isFiltering, this`lastFilterQuery, this`displayMatches)
      ensures answer.Some? ==>
        messages == old(messages) + [Message(now, UserSender, UserText(text)),
                                     Message(now + 1, BotSender, answer.value)]
      ensures answer.Some? && baggageInfo.None? && |allFoundBags| > 0 ==>
        lastFilterQuery == text && (
        match matcher
        case Threw(m) =>
          isFiltering && displayMatches == old(displayMatches) && answer.value == AssistantError(m)
        case Returned(matches) =>
          && !isFiltering
          && displayMatches == (if |matches| > 0 then matches else allFoundBags)
          && answer.value == (if |matches| > 0 then FilterFound(|matches|, text)
                              else FilterNoMatch(text)))
      ensures answer.Some? && baggageInfo.None? && |allFoundBags| > 0 ==>
        GalleryTitle(isFiltering, lastFilterQuery, displayMatches, allFoundBags)
          == match matcher
             case Threw(_) => FilteringTitle(text)
             case Returned(matches) =>
               if |matches| == 0 || |matches| == |allFoundBags| then WarehouseTitle
               else FoundGalleryTitle
      ensures answer.Some? && baggageInfo.Some? ==>
        && answer.value
             == (if reply.Returned? then BotReply(reply.value) else AssistantError(reply.message))
        && unchanged(this`isFiltering, this`lastFilterQuery, this`displayMatches)
      ensures answer.Some? && baggageInfo.None? && |allFoundBags| == 0 ==>
        answer.value == PromptIdentify
        && unchanged(this`isFiltering, this`lastFilterQuery, this`displayMatches)
    {
      TrimEmptyIffBlank(text);
      if Trim(text) == [] {
        return None;
      }
      var says := Respond(text, matcher, reply);
      messages := messages + [Message(now, UserSender, UserText(text)),
                              Message(now + 1, BotSender, says)];
      answer := Some(says);
    }

    /** A gallery card opens the preview. */
    method Preview(record: Record)
      modifies this`previewBag
      ensures previewBag == Some(record)
    {
      previewBag := Some(record);
    }

    /** The preview's confirm button opens the security form. */
    method OpenSecurityForm()
      modifies this`showSecurityForm
      ensures showSecurityForm
    {
      showSecurityForm := true;
    }

    /** `handleCloseModal`. */
    method CloseModal()
      modifies this`previewBag, this`showSecurityForm
      ensures previewBag == None && !showSecurityForm
    {
      previewBag := None;
      showSecurityForm := false;
    }

    method EditSecurityData(d: SecurityData)
      modifies this`securityData
      ensures securityData == d
    {
      securityData := d;
    }

    /** The two context writes of a claim, the audit entry first. */
    static method WriteClaim(ctx: Contexts, entry: AuditEntry, pir: string, updates: Patch)
      modifies ctx
      ensures ctx.auditLogs == old(ctx.auditLogs) + [entry]
      ensures ctx.records == UpdateFirst(old(ctx.records), pir, updates)
      ensures ctx.calls == old(ctx.calls) + [AuditAppend(entry), StoreUpdate(pir, updates)]
      ensures ctx.users == old(ctx.users) && ctx.wtConfig == old(ctx.wtConfig)
      ensures ctx.dataSource == old(ctx.dataSource)
    {
      ctx.AddAuditLog(entry);
      ctx.UpdateBaggageRecord(pir, updates);
    }

    /** `handleSelectMatch`: the Security audit entry is appended first and the
        claim update is made after it; the claimed PIR becomes the
        authenticated PIR, and the pool, the displayed matches and the preview
        are cleared. */
    method SelectMatch(ctx: Contexts, record: Record, greeting: string, now: nat)
      modifies this`authPir, this`baggageInfo, this`messages, this`allFoundBags
      modifies this`displayMatches, this`previewBag, this`showSecurityForm, ctx
      ensures ctx.auditLogs == old(ctx.auditLogs) + [ClaimAudit(record.pir, securityData, now)]
      ensures ctx.records
           == UpdateFirst(old(ctx.records), record.pir, ClaimPatch(record, securityData, phrases, now))
      ensures ctx.calls == old(ctx.calls)
        + [AuditAppend(ClaimAudit(record.pir, securityData, now)),
           StoreUpdate(record.pir, ClaimPatch(record, securityData, phrases, now))]
      ensures ctx.users == old(ctx.users) && ctx.wtConfig == old(ctx.wtConfig)
      ensures ctx.dataSource == old(ctx.dataSource)
      ensures authPir == Some(record.pir)
      ensures baggageInfo == Some(Info(record.pir, InProgress, record.currentLocation,
                                       PickupText(phrases, record.currentLocation), true))
      ensures messages == old(messages) + [Message(now, UserSender, MyBaggage(record.pir)),
                                           Message(now + 1, BotSender, BotReply(greeting))]
      ensures allFoundBags == [] && displayMatches == [] && previewBag == None && !showSecurityForm
    {
      var d, t := securityData, phrases;
      WriteClaim(ctx, ClaimAudit(record.pir, d, now), record.pir, ClaimPatch(record, d, t, now));
      ShowClaimed(record, ClaimedInfo(record, d, t, now), greeting, now);
    }

    /** The session side of a claim: the claimed PIR is authenticated with
        `info` shown, the chat gets the claim and the assistant's greeting,
        and the pool, the matches and the preview are cleared. */
    method ShowClaimed(record: Record, info: Info, greeting: string, now: nat)
      modifies this`authPir, this`baggageInfo, this`messages, this`allFoundBags
      modifies this`displayMatches, this`previewBag, this`showSecurityForm
      ensures authPir == Some(record.pir) && baggageInfo == Some(info)
      ensures messages == old(messages) + [Message(now, UserSender, MyBaggage(record.pir)),
                                           Message(now + 1, BotSender, BotReply(greeting))]
      ensures allFoundBags == [] && displayMatches == [] && previewBag == None && !showSecurityForm
    {
      authPir := Some(record.pir);
      baggageInfo := Some(info);
      messages := messages + [Message(now, UserSender, MyBaggage(record.pir)),
                              Message(now + 1, BotSender, BotReply(greeting))];
      allFoundBags := [];
      displayMatches := [];
      previewBag := None;
      showSecurityForm := false;
    }

    /** The claim button: rendered in the security form of an open preview and
        enabled only when the form is ready. */
    method ClickClaim(ctx: Contexts, greeting: string, now: nat)
      modifies this`authPir, this`baggageInfo, this`messages, this`allFoundBags
      modifies this`displayMatches, this`previewBag, this`showSecurityForm, ctx
      ensures !(old(previewBag).Some? && old(showSecurityForm) && IsSecurityFormReady(securityData))
              ==> unchanged(this) && unchanged(ctx)
      ensures old(previewBag).Some? && old(showSecurityForm) && IsSecurityFormReady(securityData) ==>
        var record := old(previewBag).value;
        && ctx.auditLogs == old(ctx.auditLogs) + [ClaimAudit(record.pir, securityData, now)]
        && ctx.records
           == UpdateFirst(old(ctx.records), record.pir, ClaimPatch(record, securityData, phrases, now))
        && ctx.calls == old(ctx.calls)
           + [AuditAppend(ClaimAudit(record.pir, securityData, now)),
              StoreUpdate(record.pir, ClaimPatch(record, securityData, phrases, now))]
        && authPir == Some(record.pir)
        && baggageInfo == Some(Info(record.pir, InProgress, record.currentLocation,
                                    PickupText(phrases, record.currentLocation), true))
        && messages == old(messages) + [Message(now, UserSender, MyBaggage(record.pir)),
                                        Message(now + 1, BotSender, BotReply(greeting))]
        && allFoundBags == [] && displayMatches == [] && previewBag == None && !showSecurityForm
      ensures ctx.users == old(ctx.users) && ctx.wtConfig == old(ctx.wtConfig)
      ensures ctx.dataSource == old(ctx.dataSource)
    {
      if previewBag.Some? && showSecurityForm && IsSecurityFormReady(securityData) {
        SelectMatch(ctx, previewBag.value, greeting, now);
      }
    }

    /** The status-notification effect over the store's current records: when
        the active record's status differs from the shown one, exactly one
        notification is prepended and the shown info is refreshed, after
        which the statuses agree and the effect has nothing more to do. */
    method SyncStatus(records: seq<Record>, now: nat)
      modifies this`notifications, this`baggageInfo
      ensures var active := ActiveRecord(authPir, records);
        if active.Some? && old(baggageInfo).Some? && active.value.status != old(baggageInfo).value.status
        then notifications == [NoticeFor(active.value, now)] + old(notifications)
             && baggageInfo == Some(InfoOf(active.value))
        else notifications == old(notifications) && baggageInfo == old(baggageInfo)
      ensures var active := ActiveRecord(authPir, records);
        active.Some? && baggageInfo.Some? ==> baggageInfo.value.status == active.value.status
    {
      var active := ActiveRecord(authPir, records);
      if active.Some? && baggageInfo.Some? && active.value.status != baggageInfo.value.status {
        notifications := [NoticeFor(active.value, now)] + notifications;
        baggageInfo := Some(InfoOf(active.value));
      }
    }

    /** `dismissNotification`. */
    method DismissNotification(id: string)
      modifies this`notifications
      ensures notifications == Filter(old(notifications), (n: Notification) => n.id != id)
    {
      notifications := Filter(notifications, (n: Notification) => n.id != id);
    }
  }
}
