/**
  The configuration tree of config.js: a JSON object held in one global,
  read by dotted paths (`getConfig`), assigned by dotted paths
  (`updateConfig`), checked for threshold ordering (`validateConfig`), and
  backed up and restored wholesale (`exportConfig` / `importConfig`).
*/
module ConfigTree {
  import opened Common
  import opened Tables
  import Cells

  /** A JSON value; objects keep their keys in insertion order. */
  datatype Json = JNull | JBool(b: bool) | JNum(x: real) | JStr(s: string) | JObj(fields: Table<Json>)

  /** Every object in the tree lists each of its keys once. */
  ghost predicate WellFormed(v: Json)
  {
    match v
    case JObj(t) => t.Valid() && forall k :: k in t.vals ==> WellFormed(t.vals[k])
    case _ => true
  }

  // ---------------------------------------------------------------------
  // Dotted paths
  // ---------------------------------------------------------------------

  /** `path.split('.')`: the pieces between dots, empty pieces included. */
  function SplitDots(s: string): (r: seq<string>)
    ensures |r| >= 1
    ensures forall i :: 0 <= i < |r| ==> '.' !in r[i]
  {
    if |s| == 0 then [""]
    else if s[0] == '.' then [""] + SplitDots(s[1..])
    else
      var rest := SplitDots(s[1..]);
      [[s[0]] + rest[0]] + rest[1..]
  }

  /** `keys.join('.')`. */
  function JoinDots(ps: seq<string>): string
    requires |ps| >= 1
  {
    if |ps| == 1 then ps[0] else ps[0] + "." + JoinDots(ps[1..])
  }

  /** Splitting a path loses nothing: joining the pieces gives the path back. */
  lemma {:induction false} JoinSplitDots(s: string)
    ensures JoinDots(SplitDots(s)) == s
  {
    if |s| > 0 {
      var rest := SplitDots(s[1..]);
      JoinSplitDots(s[1..]);
      if s[0] == '.' {
        assert SplitDots(s)[1..] == rest;
      } else {
        var r := SplitDots(s);
        assert r[0] == [s[0]] + rest[0] && r[1..] == rest[1..];
        if |rest| > 1 {
          assert JoinDots(rest) == rest[0] + "." + JoinDots(rest[1..]);
        }
      }
    }
  }

  /** A path is determined by its pieces: pieces without dots split back into themselves. */
  lemma {:induction false} SplitJoinDots(ps: seq<string>)
    requires |ps| >= 1
    requires forall i :: 0 <= i < |ps| ==> '.' !in ps[i]
    ensures SplitDots(JoinDots(ps)) == ps
  {
    if |ps| == 1 {
      SplitPlain(ps[0], "");
      assert ps[0] + "" == ps[0] && [ps[0]] == ps;
    } else {
      var tail := JoinDots(ps[1..]);
      assert SplitDots(tail) == ps[1..] by {
        SplitJoinDots(ps[1..]);
      }
      assert SplitDots(ps[0] + ("." + tail)) == [ps[0]] + SplitDots(tail) by {
        SplitPlain(ps[0], "." + tail);
        assert ("." + tail)[1..] == tail;
      }
      assert JoinDots(ps) == ps[0] + ("." + tail);
    }
  }

  /** A dot-free head followed by the rest of a path: the head grows the first piece. */
  lemma {:induction false} SplitPlain(w: string, rest: string)
    requires '.' !in w
    requires rest == "" || rest[0] == '.'
    ensures rest == "" ==> SplitDots(w + rest) == [w]
    ensures rest != "" ==> SplitDots(w + rest) == [w] + SplitDots(rest[1..])
  {
    if |w| > 0 {
      SplitPlain(w[1..], rest);
      assert (w + rest)[1..] == w[1..] + rest;
      assert [w[0]] + w[1..] == w;
    } else {
      assert w + rest == rest;
    }
  }

  // ---------------------------------------------------------------------
  // getConfig
  // ---------------------------------------------------------------------

  /**
    The walk of `getConfig`: each step needs the current value to be an
    object holding the next key; `None` is the walk giving up.
  */
  function Walk(v: Json, keys: seq<string>): Option<Json>
  {
    if keys == [] then Some(v)
    else
      match v
      case JObj(t) => if keys[0] in t.vals then Walk(t.vals[keys[0]], keys[1..]) else None
      case _ => None
  }

  /** `getConfig` on a key list: the value reached, or `null` when the walk gives up. */
  function GetPath(v: Json, keys: seq<string>): Json
  {
    match Walk(v, keys)
    case Some(x) => x
    case None => JNull
  }

  /** Walks compose: reading `a + b` is reading `b` below `a`, since `null` is not an object. */
  lemma {:induction false} GetPathAppend(v: Json, a: seq<string>, b: seq<string>)
    ensures GetPath(v, a + b) == GetPath(GetPath(v, a), b)
  {
    if a == [] {
      assert a + b == b;
    } else {
      assert (a + b)[0] == a[0] && (a + b)[1..] == a[1..] + b;
      match v
      case JObj(t) =>
        if a[0] in t.vals {
          GetPathAppend(t.vals[a[0]], a[1..], b);
        }
      case _ =>
    }
  }

  // ---------------------------------------------------------------------
  // updateConfig
  // ---------------------------------------------------------------------

  /** What `updateConfig` does with a path. */
  datatype UpdateResult =
    | Updated                      // returns true
    | InvalidPath(message: string) // throws `Error('Invalid config path: ' + path)`
    | TypeError                    // throws: the parent of the leaf is null

  /**
    The tree after `parent[last] = x` once the walk to the parent has
    succeeded: an object parent gains or replaces the key; a number, string
    or boolean parent silently keeps nothing (sloppy-mode assignment to a
    primitive).
  */
  function Assign(v: Json, keys: seq<string>, x: Json): (r: Json)
    requires |keys| >= 1
    requires WellFormed(v)
  {
    match v
    case JObj(t) =>
      if |keys| == 1 then JObj(Put(t, keys[0], x))
      else if keys[0] in t.vals then JObj(Put(t, keys[0], Assign(t.vals[keys[0]], keys[1..], x)))
      else v
    case _ => v
  }

  /** Assignment keeps every object of the tree well formed. */
  lemma {:induction false} AssignWellFormed(v: Json, keys: seq<string>, x: Json)
    requires |keys| >= 1 && WellFormed(v) && WellFormed(x)
    ensures WellFormed(Assign(v, keys, x))
  {
    match v
    case JObj(t) =>
      if |keys| > 1 && keys[0] in t.vals {
        AssignWellFormed(t.vals[keys[0]], keys[1..], x);
      }
    case _ =>
  }

  /** The outcome of `updateConfig(path, x)` as written. */
  function UpdateOutcomeAsWritten(root: Json, path: string): (r: UpdateResult)
    ensures var keys := SplitDots(path);
      && (Walk(root, keys[..|keys| - 1]).None? <==> r == InvalidPath("Invalid config path: " + path))
      && (Walk(root, keys[..|keys| - 1]) == Some(JNull) <==> r == TypeError)
  {
    var keys := SplitDots(path);
    match Walk(root, keys[..|keys| - 1])
    case None => InvalidPath("Invalid config path: " + path)
    case Some(JNull) => TypeError
    case Some(_) => Updated
  }

  /**
    The outcome `updateConfig` evidently intends: the leaf is stored only
    into an object, and any other parent is reported (as strict-mode
    JavaScript would) instead of being accepted silently.
  */
  function UpdateOutcome(root: Json, path: string): (r: UpdateResult)
    ensures var keys := SplitDots(path);
      && (Walk(root, keys[..|keys| - 1]).None? <==> r == InvalidPath("Invalid config path: " + path))
      && (r == Updated <==> exists p :: Walk(root, keys[..|keys| - 1]) == Some(p) && p.JObj?)
  {
    var keys := SplitDots(path);
    match Walk(root, keys[..|keys| - 1])
    case None => InvalidPath("Invalid config path: " + path)
    case Some(JObj(_)) => Updated
    case Some(_) => TypeError
  }

  /** Where the walk to the parent reaches an object, assigning and then reading the path gives the new value. */
  lemma {:induction false} AssignThenGet(v: Json, keys: seq<string>, x: Json)
    requires |keys| >= 1 && WellFormed(v)
    requires Walk(v, keys[..|keys| - 1]).Some? && Walk(v, keys[..|keys| - 1]).value.JObj?
    ensures GetPath(Assign(v, keys, x), keys) == x
  {
    var p := keys[..|keys| - 1];
    if |keys| == 1 {
      assert p == [] && keys[1..] == [];
      var t := v.fields;
      assert Assign(v, keys, x) == JObj(Put(t, keys[0], x));
      assert Walk(JObj(Put(t, keys[0], x)), keys) == Walk(x, keys[1..]);
    } else {
      assert p[0] == keys[0] && p[1..] == keys[1..][..|keys| - 2];
      var t := v.fields;
      AssignThenGet(t.vals[keys[0]], keys[1..], x);
    }
  }

  /** `p` is a prefix of `q`. */
  predicate PathPrefix(p: seq<string>, q: seq<string>)
  {
    |p| <= |q| && q[..|p|] == p
  }

  /** Paths that neither lie on the assigned path nor extend it keep their values. */
  lemma {:induction false} AssignKeepsOthers(v: Json, keys: seq<string>, x: Json, q: seq<string>)
    requires |keys| >= 1 && WellFormed(v)
    requires !PathPrefix(keys, q) && !PathPrefix(q, keys)
    ensures GetPath(Assign(v, keys, x), q) == GetPath(v, q)
  {
    assert q != [];
    match v
    case JObj(t) =>
      if |keys| == 1 {
        assert q[..1] == [q[0]] && keys == [keys[0]];
        assert q[0] != keys[0];
        PutOtherWalk(t, keys[0], x, q);
      } else if keys[0] in t.vals {
        var child := Assign(t.vals[keys[0]], keys[1..], x);
        assert Assign(v, keys, x) == JObj(Put(t, keys[0], child));
        if q[0] == keys[0] {
          assert !PathPrefix(keys[1..], q[1..]) && !PathPrefix(q[1..], keys[1..]);
          AssignKeepsOthers(t.vals[keys[0]], keys[1..], x, q[1..]);
          WalkObj(Put(t, keys[0], child), q);
          WalkObj(t, q);
        } else {
          PutOtherWalk(t, keys[0], child, q);
        }
      }
    case _ =>
  }

  lemma WalkObj(t: Table<Json>, q: seq<string>)
    requires q != []
    ensures Walk(JObj(t), q) == if q[0] in t.vals then Walk(t.vals[q[0]], q[1..]) else None
  {
  }

  /** Storing under one key leaves every walk that starts with another key as it was. */
  lemma PutOtherWalk(t: Table<Json>, k: string, y: Json, q: seq<string>)
    requires t.Valid() && q != [] && q[0] != k
    ensures Walk(JObj(Put(t, k, y)), q) == Walk(JObj(t), q)
  {
    WalkObj(Put(t, k, y), q);
    WalkObj(t, q);
  }

  /**
    As written, an assignment below a number reports success and stores
    nothing: in the shipped configuration `updateConfig` returns true for
    the path `monthly_summary.top_staff_count.limit`, yet the tree is
    unchanged and `getConfig` of that path stays null.
  */
  lemma UpdatePrimitiveParentAsWritten(x: Json)
    ensures var keys := ["monthly_summary", "top_staff_count", "limit"];
      && UpdateOutcomeAsWritten(DefaultConfig(), JoinDots(keys)) == Updated
      && WellFormed(DefaultConfig())
      && Assign(DefaultConfig(), keys, x) == DefaultConfig()
      && GetPath(Assign(DefaultConfig(), keys, x), keys) == JNull
  {
    DefaultConfigWellFormed();
    DefaultTopStaffCount();
    TopStaffLimitPlain();
    UpdateBelowNumber(DefaultConfig(), "monthly_summary", "top_staff_count", "limit", 10.0, x);
  }

  lemma TopStaffLimitPlain()
    ensures '.' !in "monthly_summary" && '.' !in "top_staff_count" && '.' !in "limit"
  {
  }

  lemma UpdateBelowNumber(root: Json, k1: string, k2: string, k3: string, n: real, x: Json)
    requires WellFormed(root) && Walk(root, [k1, k2]) == Some(JNum(n))
    requires '.' !in k1 && '.' !in k2 && '.' !in k3
    ensures UpdateOutcomeAsWritten(root, JoinDots([k1, k2, k3])) == Updated
    ensures Assign(root, [k1, k2, k3], x) == root
    ensures GetPath(Assign(root, [k1, k2, k3], x), [k1, k2, k3]) == JNull
  {
    var keys := [k1, k2, k3];
    SplitJoinDots(keys);
    assert keys[..2] == [k1, k2];
    AssignBelowPrimitive(root, keys, x);
  }

  lemma DefaultTopStaffCount()
    ensures Walk(DefaultConfig(), ["monthly_summary", "top_staff_count"]) == Some(JNum(10.0))
  {
    SummarySection(AlertsDefault(), RiskScoringDefault(), MonthlySummaryDefault(),
      FileManagementDefault(), DataProcessingDefault(), LoggingDefault());
    assert Walk(MonthlySummaryDefault(), ["top_staff_count"]) == Some(JNum(10.0));
  }

  lemma SummarySection<V>(a: V, r: V, m: V, f: V, d: V, l: V)
    ensures map["alerts" := a, "risk_scoring" := r, "monthly_summary" := m, "file_management" := f,
      "data_processing" := d, "logging" := l]["monthly_summary"] == m
  {
  }

  /** Below a number, text or boolean, assignment changes nothing and the path reads as null. */
  lemma {:induction false} AssignBelowPrimitive(v: Json, keys: seq<string>, x: Json)
    requires |keys| >= 1 && WellFormed(v)
    requires Walk(v, keys[..|keys| - 1]).Some?
    requires var p := Walk(v, keys[..|keys| - 1]).value; p.JNum? || p.JStr? || p.JBool?
    ensures Assign(v, keys, x) == v
    ensures GetPath(v, keys) == JNull
  {
    var p := keys[..|keys| - 1];
    if |keys| == 1 {
      assert p == [];
    } else {
      assert p[0] == keys[0] && p[1..] == keys[1..][..|keys| - 2];
      var t := v.fields;
      AssignBelowPrimitive(t.vals[keys[0]], keys[1..], x);
      assert Put(t, keys[0], t.vals[keys[0]]) == t;
    }
  }

  /** With the intended outcome, a successful update always reads back. */
  lemma UpdatedReadsBack(root: Json, path: string, x: Json)
    requires WellFormed(root)
    requires UpdateOutcome(root, path) == Updated
    ensures GetPath(Assign(root, SplitDots(path), x), SplitDots(path)) == x
  {
    AssignThenGet(root, SplitDots(path), x);
  }

  // ---------------------------------------------------------------------
  // validateConfig
  // ---------------------------------------------------------------------

  /** A property read in JavaScript: either `undefined` or a JSON value. */
  datatype Val = Undef | Is(j: Json)

  /** `o.k`: `None` is the TypeError of reading a property of `undefined` or `null`. */
  function Member(o: Val, k: string): Option<Val>
  {
    match o
    case Undef => None
    case Is(JNull) => None
    case Is(JObj(t)) => Some(if k in t.vals then Is(t.vals[k]) else Undef)
    case Is(_) => Some(Undef)
  }

  /** `o.k1.k2…` read link by link, throwing at the first `undefined` or `null` it dereferences. */
  function Chain(o: Val, keys: seq<string>): Option<Val>
    decreases |keys|
  {
    if keys == [] then Some(o)
    else
      match Member(o, keys[0])
      case None => None
      case Some(m) => Chain(m, keys[1..])
  }

  /** `o?.k1?.k2…`: a missing link yields `undefined` instead of throwing. */
  function SafeChain(o: Val, keys: seq<string>): Val
    decreases |keys|
  {
    if keys == [] then o
    else
      match Member(o, keys[0])
      case None => Undef
      case Some(m) => SafeChain(m, keys[1..])
  }

  /** Optional chaining agrees with plain chaining wherever plain chaining does not throw. */
  lemma {:induction false} SafeChainAgrees(o: Val, keys: seq<string>)
    requires Chain(o, keys).Some?
    ensures SafeChain(o, keys) == Chain(o, keys).value
    decreases |keys|
  {
    if keys != [] {
      SafeChainAgrees(Member(o, keys[0]).value, keys[1..]);
    }
  }

  predicate TruthyVal(v: Val)
  {
    match v
    case Undef => false
    case Is(JNull) => false
    case Is(JBool(b)) => b
    case Is(JNum(x)) => x != 0.0
    case Is(JStr(s)) => s != ""
    case Is(JObj(_)) => true
  }

  /** JavaScript's `ToPrimitive`: a plain object becomes the text `[object Object]`; anything else is already primitive. */
  function ToPrimitive(v: Val): (p: Val)
    ensures !(p.Is? && p.j.JObj?)
  {
    if v.Is? && v.j.JObj? then Is(JStr("[object Object]")) else v
  }

  /** JavaScript's `ToNumber` on a primitive; `None` is NaN. */
  function NumberOf(v: Val): Option<real>
  {
    match v
    case Undef => None
    case Is(JNull) => Some(0.0)
    case Is(JBool(b)) => Some(if b then 1.0 else 0.0)
    case Is(JNum(x)) => Some(x)
    case Is(JStr(s)) => Cells.TextToNumber(s)
    case Is(JObj(_)) => None
  }

  /**
    `a < b`: both sides are made primitive; two texts compare character by
    character, anything else is compared as numbers, false when either is
    NaN.
  */
  predicate JsLess(a: Val, b: Val)
  {
    var pa := ToPrimitive(a);
    var pb := ToPrimitive(b);
    if pa.Is? && pa.j.JStr? && pb.Is? && pb.j.JStr? then LexLess(pa.j.s, pb.j.s)
    else NumberOf(pa).Some? && NumberOf(pb).Some? && NumberOf(pa).value < NumberOf(pb).value
  }

  /** A threshold stored as decimal text is compared with a number by its value. */
  lemma JsLessNumericText(k: nat, x: real)
    ensures JsLess(Is(JStr(NatText(k))), Is(JNum(x))) <==> (k as real) < x
    ensures JsLess(Is(JNum(x)), Is(JStr(NatText(k)))) <==> x < (k as real)
  {
    Cells.TextToNumberOfNatText(k);
  }

  /** An object compared with text is compared as the text `[object Object]`. */
  lemma JsLessObjectText(t: Table<Json>, s: string)
    ensures JsLess(Is(JObj(t)), Is(JStr(s))) <==> LexLess("[object Object]", s)
  {
  }

  /** An imported warning threshold `"45"` below a critical threshold of 50 is reported as out of order. */
  lemma TextThresholdOutOfOrder(high: Val, medium: Val)
    ensures ApprovalOrder in Errors(false, Is(JStr("45")), Is(JNum(50.0)), high, medium)
  {
    assert NatText(45) == "45" by {
      assert NatText(4) == "4";
    }
    JsLessNumericText(45, 50.0);
  }

  const MissingSections: string := "Required config sections are missing"
  const ApprovalOrder: string := "Approval rate warning threshold should be higher than critical threshold"
  const RiskOrder: string := "High risk threshold should be higher than medium risk threshold"

  const WarningPath: seq<string> := ["alerts", "approval_rate", "warning_threshold"]
  const CriticalPath: seq<string> := ["alerts", "approval_rate", "critical_threshold"]
  const HighPath: seq<string> := ["risk_scoring", "thresholds", "high_risk"]
  const MediumPath: seq<string> := ["risk_scoring", "thresholds", "medium_risk"]

  datatype Validation = Validation(valid: bool, errors: seq<string>)

  /** `validateConfig` either returns or throws a TypeError. */
  datatype Checked = Returned(v: Validation) | Threw

  /** The errors `validateConfig` collects, given the four thresholds as read. */
  function Errors(sectionsMissing: bool, warning: Val, critical: Val, high: Val, medium: Val): (es: seq<string>)
    ensures MissingSections in es <==> sectionsMissing
    ensures ApprovalOrder in es <==> JsLess(warning, critical)
    ensures RiskOrder in es <==> JsLess(high, medium)
    ensures |es| <= 3
  {
    (if sectionsMissing then [MissingSections] else [])
    + (if JsLess(warning, critical) then [ApprovalOrder] else [])
    + (if JsLess(high, medium) then [RiskOrder] else [])
  }

  function ValidationOf(es: seq<string>): (r: Validation)
    ensures r.errors == es && (r.valid <==> es == [])
  {
    Validation(|es| == 0, es)
  }

  /** Whether `!CONFIG.alerts || !CONFIG.risk_scoring` holds (never throws once the root is not null). */
  predicate SectionsMissing(root: Json)
    requires !root.JNull?
  {
    !TruthyVal(Member(Is(root), "alerts").value) || !TruthyVal(Member(Is(root), "risk_scoring").value)
  }

  /**
    `validateConfig` as written: after noting that a section is missing it
    still dereferences `CONFIG.alerts.approval_rate…`, which throws when the
    section is absent.
  */
  function ValidateConfigAsWritten(root: Json): (r: Checked)
    ensures r.Returned? <==> (
      && !root.JNull?
      && Chain(Is(root), WarningPath).Some? && Chain(Is(root), CriticalPath).Some?
      && Chain(Is(root), HighPath).Some? && Chain(Is(root), MediumPath).Some?)
  {
    if root.JNull? then Threw
    else
      var w := Chain(Is(root), WarningPath);
      var c := Chain(Is(root), CriticalPath);
      var h := Chain(Is(root), HighPath);
      var m := Chain(Is(root), MediumPath);
      if w.None? || c.None? || h.None? || m.None? then Threw
      else Returned(ValidationOf(Errors(SectionsMissing(root), w.value, c.value, h.value, m.value)))
  }

  /** `validateConfig` as evidently intended: the same checks, reading the thresholds with `?.` so that it never throws. */
  function ValidateConfig(root: Json): (r: Validation)
    ensures r.valid <==> r.errors == []
  {
    var missing := root.JNull? || SectionsMissing(root);
    ValidationOf(Errors(missing,
      SafeChain(Is(root), WarningPath), SafeChain(Is(root), CriticalPath),
      SafeChain(Is(root), HighPath), SafeChain(Is(root), MediumPath)))
  }

  /** Wherever the code as written returns, the intended validation returns the same thing. */
  lemma ValidateRefinesAsWritten(root: Json)
    requires ValidateConfigAsWritten(root).Returned?
    ensures ValidateConfig(root) == ValidateConfigAsWritten(root).v
  {
    SafeChainAgrees(Is(root), WarningPath);
    SafeChainAgrees(Is(root), CriticalPath);
    SafeChainAgrees(Is(root), HighPath);
    SafeChainAgrees(Is(root), MediumPath);
  }

  /** An empty configuration makes `validateConfig` throw, although the intended result is the missing-sections error. */
  lemma ValidateEmptyThrows()
    ensures ValidateConfigAsWritten(JObj(Empty())) == Threw
    ensures ValidateConfig(JObj(Empty())) == Validation(false, [MissingSections])
  {
  }

  // ---------------------------------------------------------------------
  // The shipped configuration, one object literal per function
  // ---------------------------------------------------------------------

  function ApprovalRateDefault(): Json
  {
    JObj(Table(["warning_threshold", "critical_threshold"],
      map["warning_threshold" := JNum(60.0),
        "critical_threshold" := JNum(50.0)]))
  }

  function RetentionAlertDefault(): Json
  {
    JObj(Table(["warning_threshold", "critical_threshold"],
      map["warning_threshold" := JNum(30.0),
        "critical_threshold" := JNum(20.0)]))
  }

  function HighRiskStaffDefault(): Json
  {
    JObj(Table(["warning_threshold", "critical_threshold"],
      map["warning_threshold" := JNum(10.0),
        "critical_threshold" := JNum(15.0)]))
  }

  function ActivityDefault(): Json
  {
    JObj(Table(["min_calls_per_month", "min_hours_per_month", "min_activity_days"],
      map["min_calls_per_month" := JNum(5.0),
        "min_hours_per_month" := JNum(1.0),
        "min_activity_days" := JNum(2.0)]))
  }

  function AlertsDefault(): Json
  {
    JObj(Table(["approval_rate", "retention", "high_risk_staff", "activity"],
      map["approval_rate" := ApprovalRateDefault(),
        "retention" := RetentionAlertDefault(),
        "high_risk_staff" := HighRiskStaffDefault(),
        "activity" := ActivityDefault()]))
  }

  function WeightsDefault(): Json
  {
    JObj(Table(["low_activity_rate", "recent_inactivity", "low_performance", "short_tenure_low_activity", "unstable_activity"],
      map["low_activity_rate" := JNum(50.0),
        "recent_inactivity" := JNum(10.0),
        "low_performance" := JNum(40.0),
        "short_tenure_low_activity" := JNum(15.0),
        "unstable_activity" := JNum(10.0)]))
  }

  function ThresholdsDefault(): Json
  {
    JObj(Table(["high_risk", "medium_risk"],
      map["high_risk" := JNum(50.0),
        "medium_risk" := JNum(30.0)]))
  }

  function FactorsDefault(): Json
  {
    JObj(Table(["activity_rate_threshold", "recent_activity_days_threshold", "appointment_rate_threshold", "short_tenure_months", "min_activity_days_short_tenure", "activity_variance_threshold"],
      map["activity_rate_threshold" := JNum(50.0),
        "recent_activity_days_threshold" := JNum(5.0),
        "appointment_rate_threshold" := JNum(2.0),
        "short_tenure_months" := JNum(3.0),
        "min_activity_days_short_tenure" := JNum(10.0),
        "activity_variance_threshold" := JNum(10.0)]))
  }

  function RiskScoringDefault(): Json
  {
    JObj(Table(["weights", "thresholds", "factors"],
      map["weights" := WeightsDefault(),
        "thresholds" := ThresholdsDefault(),
        "factors" := FactorsDefault()]))
  }

  function EfficiencyMetricsDefault(): Json
  {
    JObj(Table(["show_calls_per_hour", "show_appointments_per_call", "show_deals_per_appointment"],
      map["show_calls_per_hour" := JBool(true),
        "show_appointments_per_call" := JBool(true),
        "show_deals_per_appointment" := JBool(true)]))
  }

  function MonthlySummaryDefault(): Json
  {
    JObj(Table(["top_staff_count", "efficiency_metrics"],
      map["top_staff_count" := JNum(10.0),
        "efficiency_metrics" := EfficiencyMetricsDefault()]))
  }

  function TargetDirectoryDefault(): Json
  {
    JObj(Table(["enabled", "folder_id", "folder_name", "create_if_not_exists"],
      map["enabled" := JBool(true),
        "folder_id" := JStr(""),
        "folder_name" := JStr("インサイドセールス分析データ"),
        "create_if_not_exists" := JBool(true)]))
  }

  function AllPeriodDirectoryDefault(): Json
  {
    JObj(Table(["enabled", "folder_id", "folder_name", "create_if_not_exists"],
      map["enabled" := JBool(true),
        "folder_id" := JStr(""),
        "folder_name" := JStr("全月データ"),
        "create_if_not_exists" := JBool(true)]))
  }

  function FileNamingDefault(): Json
  {
    JObj(Table(["summary", "retention", "detailed", "basic", "log"],
      map["summary" := JStr("月次サマリー_"),
        "retention" := JStr("定着率分析_"),
        "detailed" := JStr("詳細分析_"),
        "basic" := JStr("基本分析_"),
        "log" := JStr("実行ログ_")]))
  }

  function FileManagementDefault(): Json
  {
    JObj(Table(["folder_name", "target_directory", "all_period_directory", "file_naming", "retention_period"],
      map["folder_name" := JStr("月次営業分析レポート"),
        "target_directory" := TargetDirectoryDefault(),
        "all_period_directory" := AllPeriodDirectoryDefault(),
        "file_naming" := FileNamingDefault(),
        "retention_period" := JNum(12.0)]))
  }

  function DataProcessingDefault(): Json
  {
    JObj(Table(["date_format", "decimal_places", "missing_value_handling"],
      map["date_format" := JStr("YYYY-MM-DD"),
        "decimal_places" := JNum(2.0),
        "missing_value_handling" := JStr("zero")]))
  }

  function LogOutputDefault(): Json
  {
    JObj(Table(["console", "file", "email"],
      map["console" := JBool(true),
        "file" := JBool(true),
        "email" := JBool(false)]))
  }

  function LoggingDefault(): Json
  {
    JObj(Table(["level", "output"],
      map["level" := JStr("info"),
        "output" := LogOutputDefault()]))
  }

  /** The `CONFIG` object as shipped. */
  function DefaultConfig(): Json
  {
    JObj(Table(["alerts", "risk_scoring", "monthly_summary", "file_management", "data_processing", "logging"],
      map["alerts" := AlertsDefault(),
        "risk_scoring" := RiskScoringDefault(),
        "monthly_summary" := MonthlySummaryDefault(),
        "file_management" := FileManagementDefault(),
        "data_processing" := DataProcessingDefault(),
        "logging" := LoggingDefault()]))
  }

  lemma ApprovalRateDefaultWellFormed()
    ensures WellFormed(ApprovalRateDefault())
  {
    assert ApprovalRateDefault().fields.Valid() by { ApprovalRateDefaultKeysValid(); }
  }

  lemma ApprovalRateDefaultKeysValid()
    ensures ApprovalRateDefault().JObj? && ApprovalRateDefault().fields.Valid()
  {
  }

  lemma RetentionAlertDefaultWellFormed()
    ensures WellFormed(RetentionAlertDefault())
  {
    assert RetentionAlertDefault().fields.Valid() by { RetentionAlertDefaultKeysValid(); }
  }

  lemma RetentionAlertDefaultKeysValid()
    ensures RetentionAlertDefault().JObj? && RetentionAlertDefault().fields.Valid()
  {
  }

  lemma HighRiskStaffDefaultWellFormed()
    ensures WellFormed(HighRiskStaffDefault())
  {
    assert HighRiskStaffDefault().fields.Valid() by { HighRiskStaffDefaultKeysValid(); }
  }

  lemma HighRiskStaffDefaultKeysValid()
    ensures HighRiskStaffDefault().JObj? && HighRiskStaffDefault().fields.Valid()
  {
  }

  lemma ActivityDefaultWellFormed()
    ensures WellFormed(ActivityDefault())
  {
    assert ActivityDefault().fields.Valid() by { ActivityDefaultKeysValid(); }
  }

  lemma ActivityDefaultKeysValid()
    ensures ActivityDefault().JObj? && ActivityDefault().fields.Valid()
  {
  }

  lemma AlertsDefaultWellFormed()
    ensures WellFormed(AlertsDefault())
  {
    assert AlertsDefault().fields.Valid() by { AlertsDefaultKeysValid(); }
    ApprovalRateDefaultWellFormed();
    RetentionAlertDefaultWellFormed();
    HighRiskStaffDefaultWellFormed();
    ActivityDefaultWellFormed();
  }

  lemma AlertsDefaultKeysValid()
    ensures AlertsDefault().JObj? && AlertsDefault().fields.Valid()
  {
  }

  lemma WeightsDefaultWellFormed()
    ensures WellFormed(WeightsDefault())
  {
    assert WeightsDefault().fields.Valid() by { WeightsDefaultKeysValid(); }
  }

  lemma WeightsDefaultKeysValid()
    ensures WeightsDefault().JObj? && WeightsDefault().fields.Valid()
  {
  }

  lemma ThresholdsDefaultWellFormed()
    ensures WellFormed(ThresholdsDefault())
  {
    assert ThresholdsDefault().fields.Valid() by { ThresholdsDefaultKeysValid(); }
  }

  lemma ThresholdsDefaultKeysValid()
    ensures ThresholdsDefault().JObj? && ThresholdsDefault().fields.Valid()
  {
  }

  lemma FactorsDefaultWellFormed()
    ensures WellFormed(FactorsDefault())
  {
    assert FactorsDefault().fields.Valid() by { FactorsDefaultKeysValid(); }
  }

  lemma FactorsDefaultKeysValid()
    ensures FactorsDefault().JObj? && FactorsDefault().fields.Valid()
  {
  }

  lemma RiskScoringDefaultWellFormed()
    ensures WellFormed(RiskScoringDefault())
  {
    assert RiskScoringDefault().fields.Valid() by { RiskScoringDefaultKeysValid(); }
    WeightsDefaultWellFormed();
    ThresholdsDefaultWellFormed();
    FactorsDefaultWellFormed();
  }

  lemma RiskScoringDefaultKeysValid()
    ensures RiskScoringDefault().JObj? && RiskScoringDefault().fields.Valid()
  {
  }

  lemma EfficiencyMetricsDefaultWellFormed()
    ensures WellFormed(EfficiencyMetricsDefault())
  {
    assert EfficiencyMetricsDefault().fields.Valid() by { EfficiencyMetricsDefaultKeysValid(); }
  }

  lemma EfficiencyMetricsDefaultKeysValid()
    ensures EfficiencyMetricsDefault().JObj? && EfficiencyMetricsDefault().fields.Valid()
  {
  }

  lemma MonthlySummaryDefaultWellFormed()
    ensures WellFormed(MonthlySummaryDefault())
  {
    assert MonthlySummaryDefault().fields.Valid() by { MonthlySummaryDefaultKeysValid(); }
    EfficiencyMetricsDefaultWellFormed();
  }

  lemma MonthlySummaryDefaultKeysValid()
    ensures MonthlySummaryDefault().JObj? && MonthlySummaryDefault().fields.Valid()
  {
  }

  lemma TargetDirectoryDefaultWellFormed()
    ensures WellFormed(TargetDirectoryDefault())
  {
    assert TargetDirectoryDefault().fields.Valid() by { TargetDirectoryDefaultKeysValid(); }
  }

  lemma TargetDirectoryDefaultKeysValid()
    ensures TargetDirectoryDefault().JObj? && TargetDirectoryDefault().fields.Valid()
  {
  }

  lemma AllPeriodDirectoryDefaultWellFormed()
    ensures WellFormed(AllPeriodDirectoryDefault())
  {
    assert AllPeriodDirectoryDefault().fields.Valid() by { AllPeriodDirectoryDefaultKeysValid(); }
  }

  lemma AllPeriodDirectoryDefaultKeysValid()
    ensures AllPeriodDirectoryDefault().JObj? && AllPeriodDirectoryDefault().fields.Valid()
  {
  }

  lemma FileNamingDefaultWellFormed()
    ensures WellFormed(FileNamingDefault())
  {
    assert FileNamingDefault().fields.Valid() by { FileNamingDefaultKeysValid(); }
  }

  lemma FileNamingDefaultKeysValid()
    ensures FileNamingDefault().JObj? && FileNamingDefault().fields.Valid()
  {
  }

  lemma FileManagementDefaultWellFormed()
    ensures WellFormed(FileManagementDefault())
  {
    assert FileManagementDefault().fields.Valid() by { FileManagementDefaultKeysValid(); }
    TargetDirectoryDefaultWellFormed();
    AllPeriodDirectoryDefaultWellFormed();
    FileNamingDefaultWellFormed();
  }

  lemma FileManagementDefaultKeysValid()
    ensures FileManagementDefault().JObj? && FileManagementDefault().fields.Valid()
  {
  }

  lemma DataProcessingDefaultWellFormed()
    ensures WellFormed(DataProcessingDefault())
  {
    assert DataProcessingDefault().fields.Valid() by { DataProcessingDefaultKeysValid(); }
  }

  lemma DataProcessingDefaultKeysValid()
    ensures DataProcessingDefault().JObj? && DataProcessingDefault().fields.Valid()
  {
  }

  lemma LogOutputDefaultWellFormed()
    ensures WellFormed(LogOutputDefault())
  {
    assert LogOutputDefault().fields.Valid() by { LogOutputDefaultKeysValid(); }
  }

  lemma LogOutputDefaultKeysValid()
    ensures LogOutputDefault().JObj? && LogOutputDefault().fields.Valid()
  {
  }

  lemma LoggingDefaultWellFormed()
    ensures WellFormed(LoggingDefault())
  {
    assert LoggingDefault().fields.Valid() by { LoggingDefaultKeysValid(); }
    LogOutputDefaultWellFormed();
  }

  lemma LoggingDefaultKeysValid()
    ensures LoggingDefault().JObj? && LoggingDefault().fields.Valid()
  {
  }

  lemma DefaultConfigWellFormed()
    ensures WellFormed(DefaultConfig())
  {
    AlertsDefaultWellFormed();
    RiskScoringDefaultWellFormed();
    MonthlySummaryDefaultWellFormed();
    FileManagementDefaultWellFormed();
    DataProcessingDefaultWellFormed();
    LoggingDefaultWellFormed();
    SectionsWellFormed(AlertsDefault(), RiskScoringDefault(), MonthlySummaryDefault(),
      FileManagementDefault(), DataProcessingDefault(), LoggingDefault());
  }

  /** The six top-level sections, whatever their contents, form a well-formed tree when each of them is one. */
  lemma SectionsWellFormed(a: Json, r: Json, m: Json, f: Json, d: Json, l: Json)
    requires WellFormed(a) && WellFormed(r) && WellFormed(m) && WellFormed(f) && WellFormed(d) && WellFormed(l)
    ensures WellFormed(JObj(Table(["alerts", "risk_scoring", "monthly_summary", "file_management", "data_processing", "logging"],
      map["alerts" := a, "risk_scoring" := r, "monthly_summary" := m, "file_management" := f, "data_processing" := d, "logging" := l])))
  {
    SectionKeysValid(a, r, m, f, d, l);
  }

  /** The six section names are distinct, so the top-level table is well-formed whatever the sections hold. */
  lemma SectionKeysValid<V>(a: V, r: V, m: V, f: V, d: V, l: V)
    ensures Table(["alerts", "risk_scoring", "monthly_summary", "file_management", "data_processing", "logging"],
      map["alerts" := a, "risk_scoring" := r, "monthly_summary" := m, "file_management" := f, "data_processing" := d, "logging" := l]).Valid()
  {
  }

  lemma DefaultConfigKeysValid()
    ensures DefaultConfig().JObj? && DefaultConfig().fields.Valid()
  {
    SectionKeysValid(AlertsDefault(), RiskScoringDefault(), MonthlySummaryDefault(),
      FileManagementDefault(), DataProcessingDefault(), LoggingDefault());
  }

  /** The four thresholds `validateConfig` compares, as shipped. */
  lemma DefaultApprovalThresholds()
    ensures Chain(Is(DefaultConfig()), WarningPath) == Some(Is(JNum(60.0)))
    ensures Chain(Is(DefaultConfig()), CriticalPath) == Some(Is(JNum(50.0)))
  {
    AlertsSection(AlertsDefault(), RiskScoringDefault(), MonthlySummaryDefault(),
      FileManagementDefault(), DataProcessingDefault(), LoggingDefault());
    ApprovalRateEntry(ApprovalRateDefault(), RetentionAlertDefault(), HighRiskStaffDefault(), ActivityDefault());
    var alerts := Is(AlertsDefault());
    var rate := Is(ApprovalRateDefault());
    assert Member(Is(DefaultConfig()), "alerts") == Some(alerts);
    assert Member(alerts, "approval_rate") == Some(rate);
    ChainThree(Is(DefaultConfig()), "alerts", "approval_rate", "warning_threshold", alerts, rate);
    ChainThree(Is(DefaultConfig()), "alerts", "approval_rate", "critical_threshold", alerts, rate);
  }

  lemma DefaultRiskThresholds()
    ensures Chain(Is(DefaultConfig()), HighPath) == Some(Is(JNum(50.0)))
    ensures Chain(Is(DefaultConfig()), MediumPath) == Some(Is(JNum(30.0)))
  {
    AlertsSection(AlertsDefault(), RiskScoringDefault(), MonthlySummaryDefault(),
      FileManagementDefault(), DataProcessingDefault(), LoggingDefault());
    var risk := Is(RiskScoringDefault());
    var thresholds := Is(ThresholdsDefault());
    assert Member(Is(DefaultConfig()), "risk_scoring") == Some(risk);
    assert Member(risk, "thresholds") == Some(thresholds);
    ChainThree(Is(DefaultConfig()), "risk_scoring", "thresholds", "high_risk", risk, thresholds);
    ChainThree(Is(DefaultConfig()), "risk_scoring", "thresholds", "medium_risk", risk, thresholds);
  }

  lemma AlertsSection<V>(a: V, r: V, m: V, f: V, d: V, l: V)
    ensures var top := map["alerts" := a, "risk_scoring" := r, "monthly_summary" := m, "file_management" := f,
      "data_processing" := d, "logging" := l];
      "alerts" in top && top["alerts"] == a && "risk_scoring" in top && top["risk_scoring"] == r
  {
  }

  lemma ApprovalRateEntry<V>(a: V, r: V, h: V, c: V)
    ensures var alerts := map["approval_rate" := a, "retention" := r, "high_risk_staff" := h, "activity" := c];
      "approval_rate" in alerts && alerts["approval_rate"] == a
  {
  }

  /** A three-link chain read link by link. */
  lemma ChainThree(o: Val, k1: string, k2: string, k3: string, m1: Val, m2: Val)
    requires Member(o, k1) == Some(m1) && Member(m1, k2) == Some(m2)
    ensures Chain(o, [k1, k2, k3]) == Member(m2, k3)
  {
    assert [k1, k2, k3][1..] == [k2, k3];
    assert [k2, k3][1..] == [k3];
    assert [k3][1..] == [];
    assert Chain(o, [k1, k2, k3]) == Chain(m1, [k2, k3]);
    assert Chain(m1, [k2, k3]) == Chain(m2, [k3]);
    match Member(m2, k3)
    case None =>
    case Some(m3) =>
      assert Chain(m3, []) == Some(m3);
  }

  /** The shipped configuration passes `validateConfig`: 60 is not below 50 and 50 is not below 30. */
  lemma DefaultValidates()
    ensures ValidateConfigAsWritten(DefaultConfig()) == Returned(Validation(true, []))
    ensures ValidateConfig(DefaultConfig()) == Validation(true, [])
  {
    DefaultApprovalThresholds();
    DefaultRiskThresholds();
    DefaultSections();
    ValidWhenOrdered(DefaultConfig(), 60.0, 50.0, 50.0, 30.0);
  }

  lemma DefaultSections()
    ensures !SectionsMissing(DefaultConfig())
  {
    assert Member(Is(DefaultConfig()), "alerts") == Some(Is(AlertsDefault()));
    assert Member(Is(DefaultConfig()), "risk_scoring") == Some(Is(RiskScoringDefault()));
  }

  /** A tree with both sections and ordered numeric thresholds validates, as written and as intended. */
  lemma ValidWhenOrdered(root: Json, warning: real, critical: real, high: real, medium: real)
    requires !root.JNull? && !SectionsMissing(root)
    requires Chain(Is(root), WarningPath) == Some(Is(JNum(warning)))
    requires Chain(Is(root), CriticalPath) == Some(Is(JNum(critical)))
    requires Chain(Is(root), HighPath) == Some(Is(JNum(high)))
    requires Chain(Is(root), MediumPath) == Some(Is(JNum(medium)))
    requires critical <= warning && medium <= high
    ensures ValidateConfigAsWritten(root) == Returned(Validation(true, []))
    ensures ValidateConfig(root) == Validation(true, [])
  {
    ValidateRefinesAsWritten(root);
    OrderedNoErrors(warning, critical, high, medium);
    assert ValidateConfigAsWritten(root) ==
      Returned(ValidationOf(Errors(false, Is(JNum(warning)), Is(JNum(critical)), Is(JNum(high)), Is(JNum(medium)))));
  }

  lemma OrderedNoErrors(warning: real, critical: real, high: real, medium: real)
    requires critical <= warning && medium <= high
    ensures Errors(false, Is(JNum(warning)), Is(JNum(critical)), Is(JNum(high)), Is(JNum(medium))) == []
  {
  }

  // ---------------------------------------------------------------------
  // importConfig
  // ---------------------------------------------------------------------

  /**
    `importConfig` as written, given the outcome of `JSON.parse` (`None` with
    its error message when the text is not JSON) and the message of the
    TypeError `validateConfig` may throw: the catch block reports every
    exception as a JSON format error, even after `CONFIG` was replaced.
  */
  function ImportAsWritten(root: Json, parsed: Option<Json>, parseMessage: string, typeMessage: string): (r: (Json, Validation))
    ensures parsed.None? ==> r == (root, Validation(false, ["Invalid JSON format: " + parseMessage]))
    ensures parsed.Some? ==> r.0 == parsed.value
  {
    match parsed
    case None => (root, Validation(false, ["Invalid JSON format: " + parseMessage]))
    case Some(v) =>
      match ValidateConfigAsWritten(v)
      case Returned(res) => (v, res)
      case Threw => (v, Validation(false, ["Invalid JSON format: " + typeMessage]))
  }

  /** A well-formed JSON text holding `{}` is reported as malformed JSON yet still replaces the configuration. */
  lemma ImportEmptyAsWritten(root: Json, typeMessage: string)
    ensures ImportAsWritten(root, Some(JObj(Empty())), "", typeMessage) ==
      (JObj(Empty()), Validation(false, ["Invalid JSON format: " + typeMessage]))
  {
    ValidateEmptyThrows();
  }

  /**
    The configuration store: the global `CONFIG` and the functions of
    config.js that read and write it.
  */
  class ConfigStore {
    var root: Json

    ghost predicate Valid()
      reads this
    {
      WellFormed(root)
    }

    /** The shipped `CONFIG`. */
    constructor()
      ensures Valid() && root == DefaultConfig()
    {
      DefaultConfigWellFormed();
      root := DefaultConfig();
    }

    /** `getConfig(path)`: walks a cursor down the tree. */
    method Get(path: string) returns (r: Json)
      ensures r == GetPath(root, SplitDots(path))
    {
      var keys := SplitDots(path);
      var v := root;
      var i := 0;
      while i < |keys|
        invariant 0 <= i <= |keys|
        invariant Walk(root, keys) == Walk(v, keys[i..])
      {
        assert keys[i..][0] == keys[i] && keys[i..][1..] == keys[i + 1..];
        if v.JObj? && keys[i] in v.fields.vals {
          v := v.fields.vals[keys[i]];
        } else {
          return JNull;
        }
        i := i + 1;
      }
      return v;
    }

    /**
      `updateConfig(path, x)` with the intended outcome: the walk to the
      parent throws on a missing segment, and the leaf is stored into an
      object parent; any other parent is reported instead of ignored.
    */
    method Update(path: string, x: Json) returns (r: UpdateResult)
      requires Valid() && WellFormed(x)
      modifies this
      ensures Valid()
      ensures r == UpdateOutcome(old(root), path)
      ensures r.Updated? ==> root == Assign(old(root), SplitDots(path), x)
      ensures !r.Updated? ==> root == old(root)
      ensures r.Updated? ==> GetPath(root, SplitDots(path)) == x
    {
      var keys := SplitDots(path);
      var parentPath := keys[..|keys| - 1];
      var v := root;
      var i := 0;
      while i < |parentPath|
        invariant 0 <= i <= |parentPath|
        invariant Walk(root, parentPath) == Walk(v, parentPath[i..])
      {
        assert parentPath[i..][0] == parentPath[i] && parentPath[i..][1..] == parentPath[i + 1..];
        if v.JObj? && parentPath[i] in v.fields.vals {
          v := v.fields.vals[parentPath[i]];
        } else {
          return InvalidPath("Invalid config path: " + path);
        }
        i := i + 1;
      }
      if !v.JObj? {
        return TypeError;
      }
      AssignWellFormed(root, keys, x);
      AssignThenGet(root, keys, x);
      root := Assign(root, keys, x);
      return Updated;
    }

    /** `validateConfig()` read with `?.`, so a missing section is reported rather than thrown. */
    method Validate() returns (r: Validation)
      ensures r == ValidateConfig(root)
      ensures r.valid <==> r.errors == []
    {
      r := ValidateConfig(root);
    }

    /** `exportConfig()`: the tree to be serialised (the text format is not modelled). */
    method Export() returns (r: Json)
      ensures r == root
    {
      r := root;
    }

    /**
      `importConfig(text)`, given what `JSON.parse` made of the text: text that
      does not parse leaves the configuration untouched; parsed JSON replaces
      it and is validated.
    */
    method Import(parsed: Option<Json>, parseMessage: string) returns (r: Validation)
      requires parsed.Some? ==> WellFormed(parsed.value)
      modifies this
      ensures parsed.Some? ==> Valid()
      ensures parsed.None? ==> root == old(root) && r == Validation(false, ["Invalid JSON format: " + parseMessage])
      ensures parsed.Some? ==> root == parsed.value && r == ValidateConfig(root)
    {
      match parsed
      case None =>
        r := Validation(false, ["Invalid JSON format: " + parseMessage]);
      case Some(v) =>
        root := v;
        r := ValidateConfig(v);
    }
  }

  /** Exporting and importing the result restores the same configuration and validates it. */
  method ExportImportRoundTrip(store: ConfigStore) returns (r: Validation)
    requires store.Valid()
    modifies store
    ensures store.root == old(store.root)
    ensures r == ValidateConfig(store.root)
  {
    var backup := store.Export();
    r := store.Import(Some(backup), "");
  }
}
