/** The management console: the logistics dashboard's counts and KPIs, the
    Security audit view, adding staff users and the gateway link switch. */
module Management {
  import opened Collections
  import opened Text
  import opened Records
  import opened WorldTracer
  import opened Contexts
  import opened BaggageTimer

  /** 18 hours in milliseconds: the dashboard's SLA risk threshold. */
  const RiskThresholdMs := 18 * 3_600_000

  /** A record counts as at risk when it is not delivered and its last update
      is at least 18 hours old. */
  predicate IsAtRisk(r: Record, nowMs: int) {
    r.status != Delivered && nowMs - r.lastUpdate >= RiskThresholdMs
  }

  /** `Math.round((part / total) * 100)` in exact arithmetic: halves round up. */
  function RoundedPercent(part: int, total: int): int
    requires total > 0
  {
    (200 * part + total) / (2 * total)
  }

  /** Multiplying by a positive number keeps the order. */
  lemma MulMonotone(d: int, x: int, y: int)
    requires d > 0 && x <= y
    ensures d * x <= d * y
  {
    assert d * y - d * x == d * (y - x);
  }

  /** A quotient rounded down lies between the bounds its dividend allows. */
  lemma FloorDivBetween(n: int, d: int, lo: int, hi: int)
    requires d > 0 && d * lo <= n < d * (hi + 1)
    ensures lo <= n / d <= hi
  {
    var p := n / d;
    assert n == d * p + n % d;
    if p < lo {
      MulMonotone(d, p, lo - 1);
    }
    if p > hi {
      MulMonotone(d, hi + 1, p);
    }
  }

  /** The rounded percentage is the integer nearest to `100 * part / total`,
      with halves rounded up, and lies in 0..100 for a part of the total. */
  lemma RoundedPercentSpec(part: int, total: int)
    requires total > 0
    ensures var p := RoundedPercent(part, total);
      2 * total * p <= 200 * part + total < 2 * total * p + 2 * total
    ensures 0 <= part <= total ==> 0 <= RoundedPercent(part, total) <= 100
  {
    var n, d := 200 * part + total, 2 * total;
    assert n == d * (n / d) + n % d;
    if 0 <= part <= total {
      FloorDivBetween(n, d, 0, 100);
    }
  }

  /** The dashboard figures. `satisfaction` is the rate as computed; the
      console shows it raised to at least 0. */
  datatype Stats = Stats(
    total: nat,
    urgent: nat,
    atRisk: nat,
    delivered: nat,
    confirmed: nat,
    compliance: int,
    accuracy: int,
    prevention: int,
    satisfaction: int)

  /** `LogisticsDashboard`'s `stats` over the store's records at `nowMs`. */
  function ComputeStats(records: seq<Record>, nowMs: int): Stats {
    var total := |records|;
    var urgent := Count(records, (r: Record) => r.status == Urgent);
    var atRisk := Count(records, (r: Record) => IsAtRisk(r, nowMs));
    var delivered := Count(records, (r: Record) => r.status == Delivered);
    var confirmed := Count(records, (r: Record) => IsConfirmedFlag(r.confirmed));
    if total > 0 then
      Stats(total, urgent, atRisk, delivered, confirmed,
            RoundedPercent(total - atRisk, total),
            RoundedPercent(confirmed, total),
            RoundedPercent(total - urgent, total),
            (200 * total - 200 * urgent - 100 * atRisk + total) / (2 * total))
    else
      Stats(total, urgent, atRisk, delivered, confirmed, 100, 100, 100, 100)
  }

  /** The satisfaction value shown, `Math.max(0, satisfaction)`. */
  function ShownSatisfaction(s: Stats): (v: int)
    ensures v >= 0 && v >= s.satisfaction
    ensures v == s.satisfaction || v == 0
  {
    if s.satisfaction > 0 then s.satisfaction else 0
  }

  /** Each count is at most the total; urgent and delivered records are
      counted apart, and so are at-risk and delivered ones. */
  lemma StatsCountsBounded(records: seq<Record>, nowMs: int)
    ensures var s := ComputeStats(records, nowMs);
      && s.total == |records|
      && s.urgent <= s.total && s.atRisk <= s.total && s.delivered <= s.total
      && s.confirmed <= s.total
      && s.urgent + s.delivered <= s.total
      && s.atRisk + s.delivered <= s.total
  {
    CountDisjoint(records, (r: Record) => r.status == Urgent, (r: Record) => r.status == Delivered);
    CountDisjoint(records, (r: Record) => IsAtRisk(r, nowMs), (r: Record) => r.status == Delivered);
  }

  /** Compliance, accuracy and prevention lie in 0..100; the satisfaction rate
      lies in -50..100 and the value shown in 0..100; an empty store shows 100
      for all four. */
  lemma KpiBounds(records: seq<Record>, nowMs: int)
    ensures var s := ComputeStats(records, nowMs);
      && 0 <= s.compliance <= 100 && 0 <= s.accuracy <= 100 && 0 <= s.prevention <= 100
      && -50 <= s.satisfaction <= 100
      && 0 <= ShownSatisfaction(s) <= 100
    ensures records == [] ==>
      var s := ComputeStats(records, nowMs);
      s.compliance == 100 && s.accuracy == 100 && s.prevention == 100 && ShownSatisfaction(s) == 100
  {
    var s := ComputeStats(records, nowMs);
    var t := |records|;
    if t > 0 {
      RoundedPercentSpec(t - s.atRisk, t);
      RoundedPercentSpec(s.confirmed, t);
      RoundedPercentSpec(t - s.urgent, t);
      SatisfactionBounds(t, s.urgent, s.atRisk);
    }
  }

  /** The prevention rate is the rounded share of records that are not
      urgent. */
  lemma PreventionIsNonUrgentShare(records: seq<Record>, nowMs: int)
    requires |records| > 0
    ensures ComputeStats(records, nowMs).prevention
            == RoundedPercent(Count(records, (r: Record) => r.status != Urgent), |records|)
  {
    CountComplement(records, (r: Record) => r.status == Urgent, (r: Record) => r.status != Urgent);
  }

  /** The satisfaction formula, `round(100 - 100 u / t - 50 a / t)`, stays in
      -50..100 when neither count exceeds the total. */
  lemma SatisfactionBounds(t: int, u: int, a: int)
    requires t > 0 && 0 <= u <= t && 0 <= a <= t
    ensures -50 <= (200 * t - 200 * u - 100 * a + t) / (2 * t) <= 100
  {
    FloorDivBetween(200 * t - 200 * u - 100 * a + t, 2 * t, -50, 100);
  }

  /** The dashboard's risk threshold is the timer's warning band under the
      default 24-hour limit, measured from the last update. */
  lemma AtRiskIsTimerWarning(r: Record, nowMs: int)
    ensures IsAtRisk(r, nowMs) <==>
      r.status != Delivered
      && Classify(Hours(ElapsedSeconds(r.lastUpdate, nowMs)), DefaultLimitHours) != Nominal
  {
    HoursFromMilliseconds(r.lastUpdate, nowMs);
    DefaultLimitBands(Hours(ElapsedSeconds(r.lastUpdate, nowMs)));
  }

  /** `SecurityAuditView`'s `securityLogs`: exactly the Security entries, in
      log order. */
  function SecurityLogs(logs: seq<AuditEntry>): (shown: seq<AuditEntry>)
    ensures IsSubsequence(shown, logs)
    ensures forall e :: e in shown <==> e in logs && e.category == Security
  {
    FilterSpec(logs, (e: AuditEntry) => e.category == Security);
    Filter(logs, (e: AuditEntry) => e.category == Security)
  }

  /** A Security entry appended to the log, as the handover and the
      self-claim append theirs, is appended to the Security view. */
  lemma SecurityLogsKeepAppended(logs: seq<AuditEntry>, e: AuditEntry)
    requires e.category == Security
    ensures e in SecurityLogs(logs + [e])
    ensures SecurityLogs(logs + [e]) == SecurityLogs(logs) + [e]
  {
    FilterAppend(logs, e, (x: AuditEntry) => x.category == Security);
  }

  /** The connection switch's update: the link flag is negated, the rest of
      the config kept. */
  function Toggled(c: Config): Config {
    c.(isConnected := !c.isConnected)
  }

  /** Switching twice restores the config; one switch changes only the flag. */
  lemma ToggleInvolution(c: Config)
    ensures Toggled(Toggled(c)) == c
    ensures Toggled(c).isConnected != c.isConnected
    ensures Toggled(c).(isConnected := c.isConnected) == c
  {
  }

  /** The connection button. */
  method ToggleConnection(ctx: Contexts)
    modifies ctx
    ensures ctx.wtConfig == Toggled(old(ctx.wtConfig))
    ensures ctx.calls == old(ctx.calls) + [ConfigUpdate(Toggled(old(ctx.wtConfig)))]
    ensures ctx.records == old(ctx.records) && ctx.auditLogs == old(ctx.auditLogs)
    ensures ctx.users == old(ctx.users) && ctx.dataSource == old(ctx.dataSource)
  {
    ctx.UpdateWtConfig(Toggled(ctx.wtConfig));
  }

  /** The add-user form. */
  datatype NewUser = NewUser(name: string, employeeId: string, role: Role, jobTitle: string)

  const EmptyNewUser := NewUser("", "", Staff, "")

  /** The form can be saved when name, employee number and job title are all
      filled in; the role always has a value. */
  predicate CanAdd(u: NewUser) {
    u.name != "" && u.employeeId != "" && u.jobTitle != ""
  }

  /** The user `handleAdd` adds: active, with the form's fields and the clock
      value as its id. */
  function UserFromForm(u: NewUser, now: nat): (user: User)
    ensures user.status == Active && user.role == u.role && user.name == u.name
    ensures user.employeeId == u.employeeId && user.jobTitle == u.jobTitle
    ensures IsDigits(user.id) && DecimalValue(user.id) == now
  {
    DecimalRoundTrip(now);
    User(NatToString(now), u.name, u.employeeId, u.role, Active, u.jobTitle)
  }

  class UserManagement {
    var isAdding: bool
    var newUser: NewUser

    constructor ()
      ensures !isAdding && newUser == EmptyNewUser
    {
      isAdding := false;
      newUser := EmptyNewUser;
    }

    /** The button that opens and closes the form. */
    method ToggleForm()
      modifies this`isAdding
      ensures isAdding == !old(isAdding)
    {
      isAdding := !isAdding;
    }

    method EditForm(u: NewUser)
      modifies this`newUser
      ensures newUser == u
    {
      newUser := u;
    }

    /** `handleAdd`: an incomplete form is refused and nothing changes;
        otherwise exactly one active user is added and the form is reset and
        closed. */
    method HandleAdd(ctx: Contexts, now: nat) returns (added: bool)
      modifies this, ctx
      ensures added == CanAdd(old(newUser))
      ensures !added ==> unchanged(this) && unchanged(ctx)
      ensures added ==>
        && ctx.users == old(ctx.users) + [UserFromForm(old(newUser), now)]
        && ctx.calls == old(ctx.calls) + [UserAdd(UserFromForm(old(newUser), now))]
        && newUser == EmptyNewUser && !isAdding
      ensures ctx.records == old(ctx.records) && ctx.auditLogs == old(ctx.auditLogs)
      ensures ctx.wtConfig == old(ctx.wtConfig) && ctx.dataSource == old(ctx.dataSource)
    {
      if !CanAdd(newUser) {
        return false;
      }
      ctx.AddUser(UserFromForm(newUser, now));
      newUser := EmptyNewUser;
      isAdding := false;
      added := true;
    }

    /** The Save button exists only while the form is open; pressing it runs
        `handleAdd`. With the form closed there is nothing to press and
        nothing changes. */
    method ClickSave(ctx: Contexts, now: nat) returns (added: bool)
      modifies this, ctx
      ensures added == (old(isAdding) && CanAdd(old(newUser)))
      ensures !added ==> unchanged(this) && unchanged(ctx)
      ensures added ==>
        && ctx.users == old(ctx.users) + [UserFromForm(old(newUser), now)]
        && ctx.calls == old(ctx.calls) + [UserAdd(UserFromForm(old(newUser), now))]
        && newUser == EmptyNewUser && !isAdding
      ensures ctx.records == old(ctx.records) && ctx.auditLogs == old(ctx.auditLogs)
      ensures ctx.wtConfig == old(ctx.wtConfig) && ctx.dataSource == old(ctx.dataSource)
    {
      if isAdding {
        added := HandleAdd(ctx, now);
      } else {
        added := false;
      }
    }
  }
}
