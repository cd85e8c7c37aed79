/** The fault-injection registry: named points that fire when executed, some of them a limited
    number of times, and a ring of the latest trigger records. */
module Inject {
  import opened Lists
  import opened Numbers

  const MAX_POINTS: nat := 32
  const NAME_MAX_LEN: nat := 64
  const MESSAGE_MAX_LEN: nat := 128
  const RING_SIZE: nat := 64

  type u32 = n: nat | n < U32
  type u64 = n: nat | n < U64

  datatype Action = NoAction | ReturnError | Sleep | Print

  datatype Point = Point(name: string, action: Action, returnValue: int, sleepMs: u32, message: string,
                         enabled: bool, percent: u32, count: u32, limit: u32)

  datatype Record = Record(timestamp: u64, name: string, action: Action, returnValue: int)

  // What a strncpy into an array of n characters leaves of s.
  function Truncated(s: string, n: nat): string
    requires n > 0
  {
    if |s| < n then s else s[..n - 1]
  }

  // The points in use, and every record ever written.
  datatype Registry = Registry(points: seq<Point>, log: seq<Record>)

  // The caller's clock and die are parameters: a die shows 0 to 99.
  datatype Op =
    | SetSleep(name: string, ms: u32)
    | SetReturnError(name: string, code: int)
    | SetPrint(name: string, message: string)
    | SetFrequency(name: string, value: u32)
    | Clear(name: string)
    | ClearAll
    | Execute(name: string, now: u64, die: nat)

  predicate Configures(op: Op) {
    op.SetSleep? || op.SetReturnError? || op.SetPrint?
  }

  // The first point of that name, or the number of points.
  function Find(points: seq<Point>, name: string): (i: nat)
    ensures i <= |points| && (forall j | 0 <= j < i :: points[j].name != name)
    ensures i < |points| ==> points[i].name == name
  {
    if points == [] then 0
    else if points[0].name == name then 0
    else
      var rest := Find(points[1..], name);
      assert forall j | 1 <= j < rest + 1 :: points[j] == points[1..][j - 1];
      rest + 1
  }

  function Blank(name: string): Point {
    Point(Truncated(name, NAME_MAX_LEN), NoAction, 0, 0, "", false, 0, 0, 0)
  }

  function Configured(p: Point, op: Op): Point
    requires Configures(op)
  {
    match op
    case SetSleep(_, ms) => p.(action := Sleep, sleepMs := ms, enabled := true)
    case SetReturnError(_, code) => p.(action := ReturnError, returnValue := code, enabled := true)
    case SetPrint(_, message) =>
      p.(action := Print, message := Truncated(message, MESSAGE_MAX_LEN), enabled := true)
  }

  // Up to 100 is a percentage; more is a number of triggers, counted from 100.
  function WithFrequency(p: Point, value: u32): Point {
    if value <= 100 then p.(percent := value, limit := 0)
    else p.(count := value - 100, limit := value - 100, percent := 0)
  }

  function Reset(p: Point): Point {
    p.(enabled := false, count := p.limit)
  }

  predicate Fires(p: Point, die: nat) {
    p.enabled
    && if p.limit > 0 then p.count > 0
       else if 0 < p.percent < 100 then die < p.percent
       else true
  }

  function Spent(p: Point): Point {
    if p.enabled && p.limit > 0 && p.count > 0 then p.(count := p.count - 1) else p
  }

  // What the caller of an execution that fires is made to do. The sleep is computed on 32 bits.
  datatype Effect = Nothing | Slept(us: u32) | Returned(code: int) | Printed(message: string)

  function EffectOf(p: Point): Effect {
    match p.action
    case NoAction => Nothing
    case Sleep => Slept(p.sleepMs * 1000 % U32)
    case ReturnError => Returned(p.returnValue)
    case Print => Printed(p.message)
  }

  function RecordOf(p: Point, name: string, now: u64): Record {
    Record(now, Truncated(name, NAME_MAX_LEN), p.action, p.returnValue)
  }

  function Apply(r: Registry, op: Op): Registry {
    var i := if op.ClearAll? then 0 else Find(r.points, op.name);
    match op
    case ClearAll => r.(points := seq(|r.points|, k requires 0 <= k < |r.points| => Reset(r.points[k])))
    case SetFrequency(_, value) =>
      if i < |r.points| then r.(points := r.points[i := WithFrequency(r.points[i], value)]) else r
    case Clear(_) =>
      if i < |r.points| then r.(points := r.points[i := r.points[i].(enabled := false)]) else r
    case Execute(name, now, die) =>
      if i < |r.points|
      then Registry(r.points[i := Spent(r.points[i])],
                    if Fires(r.points[i], die) then r.log + [RecordOf(r.points[i], name, now)] else r.log)
      else r
    case _ =>
      if i < |r.points| then r.(points := r.points[i := Configured(r.points[i], op)])
      else if |r.points| < MAX_POINTS then r.(points := r.points + [Configured(Blank(op.name), op)])
      else r
  }

  function Run(r: Registry, ops: seq<Op>): Registry
    decreases |ops|
  {
    if ops == [] then r else Run(Apply(r, ops[0]), ops[1..])
  }

  // ----- Names.

  predicate Distinct(points: seq<Point>) {
    forall i, j | 0 <= i < j < |points| :: points[i].name != points[j].name
  }

  // What every stored name is, having been truncated.
  predicate ShortNames(points: seq<Point>) {
    forall i | 0 <= i < |points| :: |points[i].name| < NAME_MAX_LEN
  }

  // Points are never removed, moved or renamed, and stored names stay short.
  lemma PointsStay(r: Registry, op: Op)
    ensures var s := Apply(r, op);
            && |r.points| <= |s.points| && (forall i | 0 <= i < |r.points| :: s.points[i].name == r.points[i].name)
            && (ShortNames(r.points) ==> ShortNames(s.points))
            && r.log <= s.log
  {}

  // Distinct names stay distinct, unless a name is configured that is not found but whose
  // truncation is already taken.
  lemma DistinctIff(r: Registry, op: Op)
    requires Distinct(r.points) && ShortNames(r.points)
    ensures Distinct(Apply(r, op).points) <==>
              !(Configures(op) && |op.name| >= 64 && |r.points| < 32
                && exists i :: 0 <= i < |r.points| && r.points[i].name == op.name[..63])
  {
    PointsStay(r, op);
    var s := Apply(r, op);
    if |s.points| > |r.points| {
      forall i | 0 <= i < |r.points| && s.points[i].name == s.points[|r.points|].name ensures !Distinct(s.points) {}
      if |op.name| < NAME_MAX_LEN {
        assert forall i | 0 <= i < |r.points| :: r.points[i].name != op.name;
      }
    }
  }

  predicate GoodNames(ops: seq<Op>) {
    forall op | op in ops && Configures(op) :: |op.name| < NAME_MAX_LEN
  }

  lemma {:induction false} NamesStayDistinct(r: Registry, ops: seq<Op>)
    requires Distinct(r.points) && ShortNames(r.points) && GoodNames(ops)
    ensures Distinct(Run(r, ops).points)
    decreases |ops|
  {
    if ops != [] {
      DistinctIff(r, ops[0]);
      PointsStay(r, ops[0]);
      NamesStayDistinct(Apply(r, ops[0]), ops[1..]);
    }
  }

  // A name of 64 characters is never found again: configuring it twice makes two equal points,
  // and executing it does nothing.
  lemma LongNameAddsTwice(name: string, code: int, now: u64, die: nat)
    requires |name| == 64
    ensures var r := Run(Registry([], []), [SetReturnError(name, code), SetReturnError(name, code)]);
            !Distinct(r.points) && Apply(r, Execute(name, now, die)) == r
  {
    var op := SetReturnError(name, code);
    var one := Apply(Registry([], []), op);
    var two := Apply(one, op);
    assert [op, op][1..] == [op] && [op][1..] == [];
    assert Run(Registry([], []), [op, op]) == Run(one, [op]) == Run(two, []) == two;
    assert two.points[0].name == two.points[1].name;
  }

  // ----- The trigger budget.

  function CountName(log: seq<Record>, name: string): nat {
    if log == [] then 0
    else CountName(log[..|log| - 1], name) + if log[|log| - 1].name == name then 1 else 0
  }

  // Executions of the point that found it enabled.
  function Attempts(r: Registry, ops: seq<Op>, name: string): nat
    decreases |ops|
  {
    if ops == [] then 0
    else
      var i := Find(r.points, name);
      (if ops[0].Execute? && ops[0].name == name && i < |r.points| && r.points[i].enabled then 1 else 0)
      + Attempts(Apply(r, ops[0]), ops[1..], name)
  }

  predicate Resets(op: Op, name: string) {
    op.ClearAll? || (op.SetFrequency? && op.name == name)
  }

  lemma FoundStays(r: Registry, op: Op, name: string)
    requires Find(r.points, name) < |r.points|
    ensures Find(Apply(r, op).points, name) == Find(r.points, name) < |Apply(r, op).points|
  {
    PointsStay(r, op);
    var i, s := Find(r.points, name), Apply(r, op);
    assert forall j | 0 <= j < i :: s.points[j].name == r.points[j].name;
  }

  // An attempt that finds a trigger left.
  predicate Hits(r: Registry, op: Op, name: string)
    requires Find(r.points, name) < |r.points|
  {
    var p := r.points[Find(r.points, name)];
    op.Execute? && op.name == name && p.enabled && p.count > 0
  }

  // What one operation makes of the first point of that name.
  function PointAfter(p: Point, op: Op, name: string): Point {
    if op.ClearAll? then Reset(p)
    else if op.name != name then p
    else if op.Execute? then Spent(p)
    else if op.Clear? then p.(enabled := false)
    else if op.SetFrequency? then WithFrequency(p, op.value)
    else Configured(p, op)
  }

  lemma PointBecomes(r: Registry, op: Op, name: string)
    requires Find(r.points, name) < |r.points|
    ensures var i := Find(r.points, name);
            i < |Apply(r, op).points| && Apply(r, op).points[i] == PointAfter(r.points[i], op, name)
  {
    var i := Find(r.points, name);
    if !op.ClearAll? && op.name != name {
      assert Find(r.points, op.name) != i;
    }
  }

  // One operation that does not reset the point leaves its limit and spends at most one trigger.
  lemma OneOpOnPoint(r: Registry, op: Op, name: string)
    requires Find(r.points, name) < |r.points| && !Resets(op, name) && r.points[Find(r.points, name)].limit > 0
    ensures var i := Find(r.points, name);
            i < |Apply(r, op).points|
            && var p, q := r.points[i], Apply(r, op).points[i];
               q.limit == p.limit && q.count == p.count - if Hits(r, op, name) then 1 else 0
  {
    PointBecomes(r, op, name);
  }

  lemma CountMore(log: seq<Record>, record: Record, name: string)
    ensures CountName(log + [record], name) == CountName(log, name) + if record.name == name then 1 else 0
  {
    assert (log + [record])[..|log|] == log;
  }

  // An execution of the point that fires leaves one record; nothing else leaves one under its name.
  lemma OneOpOnLog(r: Registry, op: Op, name: string)
    requires ShortNames(r.points) && Find(r.points, name) < |r.points|
    ensures CountName(Apply(r, op).log, name)
            == CountName(r.log, name)
               + if op.Execute? && op.name == name && Fires(r.points[Find(r.points, name)], op.die) then 1 else 0
  {
    if op.Execute? && Find(r.points, op.name) < |r.points| {
      CountMore(r.log, RecordOf(r.points[Find(r.points, op.name)], op.name, op.now), name);
    }
  }

  // With c triggers left, exactly the first c attempts fire, whatever else happens meanwhile to
  // this or to other points.
  lemma {:induction false} BudgetIsExact(r: Registry, ops: seq<Op>, name: string)
    requires ShortNames(r.points) && Find(r.points, name) < |r.points|
    requires r.points[Find(r.points, name)].limit > 0 && forall op | op in ops :: !Resets(op, name)
    ensures var c, s := r.points[Find(r.points, name)].count, Run(r, ops);
            var hits := Min(c, Attempts(r, ops, name));
            && CountName(s.log, name) == CountName(r.log, name) + hits
            && Find(s.points, name) == Find(r.points, name) < |s.points|
            && s.points[Find(r.points, name)].count == c - hits
    decreases |ops|
  {
    if ops != [] {
      FoundStays(r, ops[0], name);
      OneOpOnPoint(r, ops[0], name);
      OneOpOnLog(r, ops[0], name);
      PointsStay(r, ops[0]);
      BudgetIsExact(Apply(r, ops[0]), ops[1..], name);
    }
  }

  // Since its last reset, a point with limit L has fired exactly min(L, attempts) times; setting its
  // frequency to 100 + L gives it that limit, and clearing all points leaves it the one it had.
  lemma FiresUpToLimit(before: Registry, reset: Op, ops: seq<Op>, name: string)
    requires ShortNames(before.points) && Find(before.points, name) < |before.points|
    requires Resets(reset, name) && forall op | op in ops :: !Resets(op, name)
    ensures var limit := if reset.ClearAll? then before.points[Find(before.points, name)].limit
                         else if reset.value > 100 then reset.value - 100 else 0;
            var r := Apply(before, reset);
            limit > 0 ==> CountName(Run(r, ops).log, name)
                          == CountName(before.log, name) + Min(limit, Attempts(r, ops, name))
  {
    var r := Apply(before, reset);
    FoundStays(before, reset, name);
    PointsStay(before, reset);
    PointBecomes(before, reset, name);
    ResetRefills(before, reset, name);
    if r.points[Find(r.points, name)].limit > 0 {
      BudgetIsExact(r, ops, name);
    }
  }

  lemma ResetRefills(before: Registry, reset: Op, name: string)
    requires Find(before.points, name) < |before.points| && Resets(reset, name)
    ensures var i, r := Find(before.points, name), Apply(before, reset);
            && i < |r.points| && (r.points[i].limit > 0 ==> r.points[i].count == r.points[i].limit)
            && r.log == before.log
  {}

  // ----- What a point was set to.

  predicate Reconfigures(op: Op, name: string) {
    op.ClearAll? || (op.name == name && (Configures(op) || op.Clear?))
  }

  lemma OneOpKeepsEffect(p: Point, op: Op, name: string)
    requires !Reconfigures(op, name)
    ensures var q := PointAfter(p, op, name); EffectOf(q) == EffectOf(p) && q.enabled == p.enabled
  {}

  lemma {:induction false} RunKeepsEffect(r: Registry, ops: seq<Op>, name: string)
    requires Find(r.points, name) < |r.points| && forall op | op in ops :: !Reconfigures(op, name)
    ensures var i, s := Find(r.points, name), Run(r, ops);
            && Find(s.points, name) == i < |s.points|
            && EffectOf(s.points[i]) == EffectOf(r.points[i]) && s.points[i].enabled == r.points[i].enabled
    decreases |ops|
  {
    if ops != [] {
      assert ops[0] in ops;
      FoundStays(r, ops[0], name);
      PointBecomes(r, ops[0], name);
      OneOpKeepsEffect(r.points[Find(r.points, name)], ops[0], name);
      RunKeepsEffect(Apply(r, ops[0]), ops[1..], name);
    }
  }

  lemma SetterFinds(r: Registry, setting: Op)
    requires Configures(setting) && |setting.name| < NAME_MAX_LEN && Fits(r, setting.name)
    ensures var s := Apply(r, setting);
            && Find(s.points, setting.name) == Find(r.points, setting.name) < |s.points|
            && s.points[Find(s.points, setting.name)].enabled
            && EffectOf(s.points[Find(s.points, setting.name)])
               == match setting
                  case SetSleep(_, ms) => Slept(ms * 1000 % 0x1_0000_0000)
                  case SetReturnError(_, code) => Returned(code)
                  case SetPrint(_, message) => Printed(if |message| < 128 then message else message[..127])
  {
    var i, s := Find(r.points, setting.name), Apply(r, setting);
    PointsStay(r, setting);
    if i < |r.points| {
      FoundStays(r, setting, setting.name);
    } else {
      assert s.points[i].name == setting.name;
      assert forall j | 0 <= j < i :: s.points[j].name == r.points[j].name != setting.name;
    }
  }

  // The action as a record tells it; an error is told with its code.
  predicate Tells(record: Record, effect: Effect) {
    match effect
    case Nothing => record.action.NoAction?
    case Slept(_) => record.action.Sleep?
    case Returned(code) => record.action.ReturnError? && record.returnValue == code
    case Printed(_) => record.action.Print?
  }

  // An execution that fires leaves a record of when, which point and what it did.
  lemma FiringIsRecorded(r: Registry, name: string, now: u64, die: nat)
    requires ShortNames(r.points) && Find(r.points, name) < |r.points| && Fires(r.points[Find(r.points, name)], die)
    ensures var log := Apply(r, Execute(name, now, die)).log;
            && |log| == |r.log| + 1 && r.log == log[..|r.log|]
            && log[|r.log|].timestamp == now && log[|r.log|].name == name
            && Tells(log[|r.log|], EffectOf(r.points[Find(r.points, name)]))
  {}

  // A point that was set is enabled and does what it was last set to, until it is set again or
  // cleared. Messages are cut after 127 characters.
  lemma ActsAsLastSet(before: Registry, setting: Op, ops: seq<Op>)
    requires Configures(setting) && |setting.name| < NAME_MAX_LEN && Fits(before, setting.name)
    requires forall op | op in ops :: !Reconfigures(op, setting.name)
    ensures var s := Run(Apply(before, setting), ops);
            var i := Find(s.points, setting.name);
            && i < |s.points| && s.points[i].enabled
            && EffectOf(s.points[i])
               == match setting
                  case SetSleep(_, ms) => Slept(ms * 1000 % 0x1_0000_0000)
                  case SetReturnError(_, code) => Returned(code)
                  case SetPrint(_, message) => Printed(if |message| < 128 then message else message[..127])
  {
    SetterFinds(before, setting);
    RunKeepsEffect(Apply(before, setting), ops, setting.name);
  }

  lemma OneOpKeepsPercent(p: Point, op: Op, name: string)
    requires !Resets(op, name)
    ensures var q := PointAfter(p, op, name); q.percent == p.percent && q.limit == p.limit
  {}

  lemma {:induction false} RunKeepsPercent(r: Registry, ops: seq<Op>, name: string)
    requires Find(r.points, name) < |r.points| && forall op | op in ops :: !Resets(op, name)
    ensures var i, s := Find(r.points, name), Run(r, ops);
            && Find(s.points, name) == i < |s.points|
            && s.points[i].percent == r.points[i].percent && s.points[i].limit == r.points[i].limit
    decreases |ops|
  {
    if ops != [] {
      assert ops[0] in ops;
      FoundStays(r, ops[0], name);
      PointBecomes(r, ops[0], name);
      OneOpKeepsPercent(r.points[Find(r.points, name)], ops[0], name);
      RunKeepsPercent(Apply(r, ops[0]), ops[1..], name);
    }
  }

  // A point that was added by being set fires on every execution, as long as no frequency is set.
  lemma NewPointFires(before: Registry, setting: Op, ops: seq<Op>, die: nat)
    requires Configures(setting) && |setting.name| < 64 && Find(before.points, setting.name) == |before.points| < 32
    requires forall op | op in ops :: !Reconfigures(op, setting.name) && !Resets(op, setting.name)
    ensures var s := Run(Apply(before, setting), ops);
            Find(s.points, setting.name) < |s.points| && Fires(s.points[Find(s.points, setting.name)], die)
  {
    SetterFinds(before, setting);
    RunKeepsEffect(Apply(before, setting), ops, setting.name);
    RunKeepsPercent(Apply(before, setting), ops, setting.name);
  }

  // Set to a percentage, a point fires on exactly the dice below it, of the hundred there are; but at
  // zero percent it fires on every one.
  lemma FiresByPercentage(before: Registry, value: u32, ops: seq<Op>, name: string, die: nat)
    requires Find(before.points, name) < |before.points| && value <= 100 && die < 100
    requires forall op | op in ops :: !Resets(op, name)
    ensures var s := Run(Apply(before, SetFrequency(name, value)), ops);
            var i := Find(s.points, name);
            && i < |s.points|
            && (Fires(s.points[i], die) <==> s.points[i].enabled && (value == 0 || die < value))
  {
    var setting := SetFrequency(name, value);
    FoundStays(before, setting, name);
    PointBecomes(before, setting, name);
    RunKeepsPercent(Apply(before, setting), ops, name);
  }

  lemma {:induction false} StaysSilent(r: Registry, ops: seq<Op>, name: string)
    requires ShortNames(r.points) && Find(r.points, name) < |r.points| && !r.points[Find(r.points, name)].enabled
    requires forall op | op in ops :: !(Configures(op) && op.name == name)
    ensures CountName(Run(r, ops).log, name) == CountName(r.log, name)
    decreases |ops|
  {
    if ops != [] {
      FoundStays(r, ops[0], name);
      PointsStay(r, ops[0]);
      PointBecomes(r, ops[0], name);
      OneOpOnLog(r, ops[0], name);
      StaysSilent(Apply(r, ops[0]), ops[1..], name);
    }
  }

  // A cleared point does not fire until it is set again.
  lemma ClearedIsSilent(before: Registry, clear: Op, ops: seq<Op>, name: string)
    requires ShortNames(before.points) && Find(before.points, name) < |before.points|
    requires clear == ClearAll || clear == Op.Clear(name)
    requires forall op | op in ops :: !(Configures(op) && op.name == name)
    ensures CountName(Run(Apply(before, clear), ops).log, name) == CountName(before.log, name)
  {
    FoundStays(before, clear, name);
    PointsStay(before, clear);
    PointBecomes(before, clear, name);
    StaysSilent(Apply(before, clear), ops, name);
  }

  // ----- What the verify command reports.

  // One of the latest records that the ring holds is recent; its unused slots are zero.
  predicate Triggered(log: seq<Record>, name: string, now: u64, threshold: u64) {
    || (exists k :: 0 <= k < |log| && |log| - 64 <= k && Recent(log[k], name, now, threshold))
    || (|log| < 64 && Recent(NO_RECORD, name, now, threshold))
  }

  lemma {:induction false} LogGrows(r: Registry, ops: seq<Op>)
    ensures r.log <= Run(r, ops).log
    decreases |ops|
  {
    if ops != [] {
      PointsStay(r, ops[0]);
      LogGrows(Apply(r, ops[0]), ops[1..]);
    }
  }

  // An execution that fires is reported as long as it is recent enough and less than 64 others have
  // fired since.
  lemma ReportedAfterFiring(r: Registry, name: string, firedAt: u64, die: nat, ops: seq<Op>, now: u64, threshold: u64)
    requires ShortNames(r.points) && Find(r.points, name) < |r.points| && Fires(r.points[Find(r.points, name)], die)
    requires firedAt <= now && now - firedAt <= threshold
    ensures var fired := Apply(r, Execute(name, firedAt, die));
            |Run(fired, ops).log| < |fired.log| + 64 ==> Triggered(Run(fired, ops).log, name, now, threshold)
  {
    var fired := Apply(r, Execute(name, firedAt, die));
    var log := Run(fired, ops).log;
    LogGrows(fired, ops);
    assert fired.log[|r.log|] == log[|r.log|];
    assert Recent(log[|r.log|], name, now, threshold);
  }

  // Nothing is reported that no execution within the threshold left.
  lemma ReportedOnlyIfFired(log: seq<Record>, name: string, now: u64, threshold: u64)
    requires Triggered(log, name, now, threshold) && name != ""
    ensures exists k :: 0 <= k < |log| && log[k].name == name
                        && (log[k].timestamp <= now ==> now - log[k].timestamp <= threshold)
  {
    var k :| 0 <= k < |log| && |log| - 64 <= k && Recent(log[k], name, now, threshold);
  }

  // ----- The registry in shared memory.

  const NO_RECORD := Record(0, "", NoAction, 0)

  // The k-th latest record sits k slots before the tail; unused slots are still zero.
  ghost predicate RingHolds(ring: seq<Record>, log: seq<Record>) {
    && |ring| == RING_SIZE
    && (forall k | 0 <= k < |log| && |log| - RING_SIZE <= k :: ring[k % RING_SIZE] == log[k])
    && (forall k | |log| <= k < RING_SIZE :: ring[k] == NO_RECORD)
  }

  class InjectRegistry {
    const points: array<Point>
    const ring: array<Record>
    var count: nat
    var ringTail: nat
    ghost var log: seq<Record>

    ghost predicate Valid()
      reads this, points, ring
    {
      && points.Length == MAX_POINTS && ring.Length == RING_SIZE && count <= MAX_POINTS
      && ringTail == |log| % RING_SIZE && RingHolds(ring[..], log) && ShortNames(points[..count])
    }

    ghost function View(): Registry
      requires Valid()
      reads this, points, ring
    {
      Registry(points[..count], log)
    }

    constructor ()
      ensures Valid() && View() == Registry([], [])
      ensures fresh(points) && fresh(ring)
    {
      points := new Point[MAX_POINTS](_ => Blank(""));
      ring := new Record[RING_SIZE](_ => NO_RECORD);
      count, ringTail, log := 0, 0, [];
    }

    // The scan that every operation starts with.
    method FindPoint(name: string) returns (i: nat)
      requires Valid()
      ensures i == Find(View().points, name)
    {
      i := 0;
      while i < count
        invariant i <= count && forall j | 0 <= j < i :: points[j].name != name
      {
        if points[i].name == name {
          return;
        }
        i := i + 1;
      }
    }

    // The part shared by the three setters: the point to configure, added if there is room.
    method FindOrAdd(name: string) returns (i: Option<nat>)
      requires Valid()
      modifies points, this`count
      ensures Valid() && log == old(log)
      ensures var was := old(View()).points; var k := Find(was, name);
              && (i.None? <==> k == |was| == MAX_POINTS)
              && (i.Some? ==> i.value == k < |View().points|)
              && View().points == if k < |was| || i.None? then was else was + [Blank(name)]
    {
      var k := FindPoint(name);
      if k < count {
        return Some(k);
      }
      if count < MAX_POINTS {
        points[count] := Blank(name);
        count := count + 1;
        return Some(k);
      }
      i := None;
    }

    method Change(i: nat, p: Point)
      requires Valid() && i < count && |p.name| < NAME_MAX_LEN
      modifies points
      ensures Valid() && View() == old(View()).(points := old(View()).points[i := p])
    {
      points[i] := p;
    }

    method SetSleep(name: string, ms: u32) returns (ok: bool)
      requires Valid()
      modifies points, this`count
      ensures Valid() && View() == Apply(old(View()), Op.SetSleep(name, ms)) && ok == Fits(old(View()), name)
    {
      var i := FindOrAdd(name);
      ok := i.Some?;
      if ok {
        Change(i.value, points[i.value].(action := Sleep, sleepMs := ms, enabled := true));
      }
    }

    method SetReturnError(name: string, code: int) returns (ok: bool)
      requires Valid()
      modifies points, this`count
      ensures Valid() && View() == Apply(old(View()), Op.SetReturnError(name, code)) && ok == Fits(old(View()), name)
    {
      var i := FindOrAdd(name);
      ok := i.Some?;
      if ok {
        Change(i.value, points[i.value].(action := ReturnError, returnValue := code, enabled := true));
      }
    }

    method SetPrint(name: string, message: string) returns (ok: bool)
      requires Valid()
      modifies points, this`count
      ensures Valid() && View() == Apply(old(View()), Op.SetPrint(name, message)) && ok == Fits(old(View()), name)
    {
      var i := FindOrAdd(name);
      ok := i.Some?;
      if ok {
        var text := Truncated(message, MESSAGE_MAX_LEN);
        Change(i.value, points[i.value].(action := Print, message := text, enabled := true));
      }
    }

    method SetFrequency(name: string, value: u32) returns (ok: bool)
      requires Valid()
      modifies points
      ensures Valid() && View() == Apply(old(View()), Op.SetFrequency(name, value))
      ensures ok == (Find(old(View()).points, name) < |old(View()).points|)
    {
      var i := FindPoint(name);
      ok := i < count;
      if ok {
        if value <= 100 {
          Change(i, points[i].(percent := value, limit := 0));
        } else {
          var triggers := value - 100;
          Change(i, points[i].(count := triggers, limit := triggers, percent := 0));
        }
      }
    }

    method Clear(name: string)
      requires Valid()
      modifies points
      ensures Valid() && View() == Apply(old(View()), Op.Clear(name))
    {
      var i := FindPoint(name);
      if i < count {
        Change(i, points[i].(enabled := false));
      }
    }

    method ClearAll()
      requires Valid()
      modifies points
      ensures Valid() && View() == Apply(old(View()), Op.ClearAll)
    {
      for i := 0 to count
        invariant Valid() && log == old(log)
        invariant forall k | 0 <= k < i :: points[k] == Reset(old(points[k]))
        invariant forall k | i <= k < count :: points[k] == old(points[k])
      {
        points[i] := points[i].(enabled := false);
        var limit := points[i].limit;
        points[i] := points[i].(count := limit);
      }
    }

    // Decides whether an enabled point triggers; a limited one takes one off its count and puts
    // it back if there was none left.
    method Decide(i: nat, die: nat) returns (fires: bool)
      requires Valid() && i < count && points[i].enabled
      modifies points
      ensures Valid() && fires == Fires(old(points[i]), die)
      ensures View() == old(View()).(points := old(View()).points[i := Spent(old(points[i]))])
    {
      var p := points[i];
      if p.limit > 0 {
        Change(i, p.(count := (p.count + U32 - 1) % U32));
        fires := p.count > 0;
        if !fires {
          Change(i, points[i].(count := (points[i].count + 1) % U32));
        }
      } else if 0 < p.percent < 100 {
        fires := die < p.percent;
      } else {
        fires := true;
      }
    }

    method Append(record: Record)
      requires Valid()
      modifies ring, this`ringTail, this`log
      ensures Valid() && View() == old(View()).(log := old(log) + [record])
    {
      NextSlot(log, record);
      ring[ringTail] := record;
      ringTail := (ringTail + 1) % RING_SIZE;
      log := log + [record];
    }

    // os_transport_inject_execute; its switch after the unlock says what becomes of the caller.
    method Execute(name: string, now: u64, die: nat) returns (effect: Effect)
      requires Valid()
      modifies points, ring, this`ringTail, this`log
      ensures Valid() && View() == Apply(old(View()), Op.Execute(name, now, die))
      ensures var r := old(View());
              var k := Find(r.points, name);
              effect == if k < |r.points| && Fires(r.points[k], die) then EffectOf(r.points[k]) else Nothing
    {
      var i := FindPoint(name);
      effect := Nothing;
      if i < count && points[i].enabled {
        var p := points[i];
        var fires := Decide(i, die);
        if fires {
          Append(Record(now, Truncated(name, NAME_MAX_LEN), p.action, p.returnValue));
          match p.action {
            case Sleep => effect := Slept(p.sleepMs * 1000 % U32);
            case ReturnError => effect := Returned(p.returnValue);
            case Print => effect := Printed(p.message);
            case NoAction => effect := Nothing;
          }
        }
      }
    }

    // The verify command of the command line tool: did the point trigger recently? It looks at the
    // whole ring, latest record first.
    method Verify(name: string, now: u64, threshold: u64) returns (triggered: bool)
      requires Valid()
      ensures triggered <==> Triggered(log, name, now, threshold)
    {
      for i := 0 to RING_SIZE
        invariant forall k | 0 <= k < |log| && |log| - i <= k :: !Recent(log[k], name, now, threshold)
        invariant i > |log| ==> !Recent(NO_RECORD, name, now, threshold)
      {
        var slot := (ringTail + RING_SIZE - 1 - i) % RING_SIZE;
        SlotOf(log, i);
        if ring[slot].name == name {
          if (now + U64 - ring[slot].timestamp) % U64 <= threshold {
            return true;
          }
        }
      }
      triggered := false;
    }
  }

  // No older than the threshold, on a clock of 64 bits.
  predicate Recent(record: Record, name: string, now: u64, threshold: u64) {
    record.name == name
    && (if record.timestamp <= now then now - record.timestamp else now + U64 - record.timestamp) <= threshold
  }

  // A setter succeeds if the point exists or there is room for it.
  predicate Fits(r: Registry, name: string) {
    Find(r.points, name) < |r.points| || |r.points| < MAX_POINTS
  }

  // A record written at the tail replaces the one that just became older than the ring.
  lemma NextSlot(log: seq<Record>, record: Record)
    ensures (|log| % RING_SIZE + 1) % RING_SIZE == (|log| + 1) % RING_SIZE
    ensures forall k | 0 <= k < |log| && |log| + 1 - RING_SIZE <= k :: k % RING_SIZE != |log| % RING_SIZE
  {}

  lemma SlotOf(log: seq<Record>, i: nat)
    requires i < RING_SIZE
    ensures var slot := (|log| % RING_SIZE + RING_SIZE - 1 - i) % RING_SIZE;
            if i < |log| then slot == (|log| - 1 - i) % RING_SIZE else |log| <= slot < RING_SIZE
  {}
}
