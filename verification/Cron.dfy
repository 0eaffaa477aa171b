/** Five-field cron schedules: parsed to one bit per allowed value, and matched against a time. */
module Cron {
  import opened Transfer
  import opened Parsing
  import opened WalFiles

  /** A bit mask, as the set of its bits that are on. */
  type Mask = set<nat>

  // ---------------------------------------------------------------- text

  /** Unicode's white space. */
  predicate IsBlank(c: char) {
    var n := c as int;
    9 <= n <= 13 || 0x2000 <= n <= 0x200A || n in {0x20, 0x85, 0xA0, 0x1680, 0x2028, 0x2029, 0x202F, 0x205F, 0x3000}
  }

  /** The words of `s`; `word` is the one being read. */
  function WordsOf(s: string, word: string): seq<string>
    decreases |s|
  {
    if s == "" then (if word == "" then [] else [word])
    else if IsBlank(s[0]) then (if word == "" then WordsOf(s[1..], "") else [word] + WordsOf(s[1..], ""))
    else WordsOf(s[1..], word + [s[0]])
  }

  function Fields(expr: string): seq<string> {
    WordsOf(expr, "")
  }

  /** The parts of `s` between commas. */
  function Split(s: string): seq<string>
    decreases |s|
  {
    var (front, rest) := Cut(s, ',');
    if |front| == |s| then [s] else [front] + Split(rest)
  }

  // ---------------------------------------------------------------- one part of a field

  const WEEKDAY: nat := 4

  function Low(i: nat): int {
    if i == 2 || i == 3 then 1 else 0
  }

  function High(i: nat): int {
    if i == 0 then 59 else if i == 1 then 23 else if i == 2 then 31 else if i == 3 then 12 else 7
  }

  function Number(s: string, lo: int, hi: int): Option<int> {
    var n := ParseInt(s);
    if n.Some? && lo <= n.value <= hi then n else None
  }

  /** From, to, and the step between. */
  datatype Range = Range(from: int, to: int, step: int)

  /** The bounds a part names: all of the field's, two numbers, or one (to the field's end if there is a step). */
  function Bounds(rng: string, lo: int, hi: int, hasStep: bool): Option<(int, int)> {
    if rng == "*" then Some((lo, hi))
    else
      var (a, b) := Cut(rng, '-');
      var from := Number(a, lo, hi);
      var to := if |a| < |rng| then Number(b, lo, hi) else if hasStep then Some(hi) else from;
      if from.None? || to.None? || from.value > to.value then None else Some((from.value, to.value))
  }

  function ParsePart(part: string, lo: int, hi: int): Option<Range> {
    var (rng, stepText) := Cut(part, '/');
    var hasStep := |rng| < |part|;
    var step := if hasStep then ParseInt(stepText) else Some(1);
    var bounds := Bounds(rng, lo, hi, hasStep);
    if step.None? || step.value <= 0 || bounds.None? then None
    else Some(Range(bounds.value.0, bounds.value.1, step.value))
  }

  /** A whole number of steps from the start. */
  predicate OnStep(r: Range, v: int) {
    r.step > 0 && (v - r.from) % r.step == 0
  }

  /** A value of the progression. */
  predicate InRange(r: Range, v: int) {
    r.from <= v <= r.to && OnStep(r, v)
  }

  predicate WellFormed(r: Range, lo: int, hi: int) {
    lo <= r.from <= r.to <= hi && 0 < r.step < INT64_LIMIT
  }

  lemma BoundsInside(rng: string, lo: int, hi: int, hasStep: bool)
    requires lo <= hi && Bounds(rng, lo, hi, hasStep).Some?
    ensures var b := Bounds(rng, lo, hi, hasStep).value; lo <= b.0 <= b.1 <= hi
  {
  }

  lemma PartWellFormed(part: string, lo: int, hi: int)
    requires lo <= hi && ParsePart(part, lo, hi).Some?
    ensures WellFormed(ParsePart(part, lo, hi).value, lo, hi)
  {
    var rng := Cut(part, '/').0;
    BoundsInside(rng, lo, hi, |rng| < |part|);
  }

  /** The first step passes the largest 64-bit integer. */
  predicate Wraps(r: Range) {
    r.from + r.step >= INT64_LIMIT
  }

  function Wrapped(x: int): int {
    if x >= INT64_LIMIT then x - 2 * INT64_LIMIT else x
  }

  /** A sum of two 64-bit integers that wraps is the 64-bit integer equal to it modulo 2^64. */
  lemma WrappedIs(a: int, b: int)
    requires 0 <= a < INT64_LIMIT && 0 <= b < INT64_LIMIT
    ensures -INT64_LIMIT <= Wrapped(a + b) < INT64_LIMIT
    ensures (a + b - Wrapped(a + b)) % 0x1_0000_0000_0000_0000 == 0
  {
  }

  lemma Remainder(x: int, q: int, a: int, n: int)
    requires 0 <= a < n && x == q * n + a
    ensures x % n == a
  {
    var d := q - x / n;
    assert d * n == x % n - a;
    assert d >= 1 ==> d * n >= n;
    assert d <= -1 ==> d * n <= -n;
  }

  /** Between one value of the progression and the next there is none. */
  lemma NothingBetween(r: Range, v: int, w: int)
    requires OnStep(r, v) && v <= w < v + r.step
    ensures OnStep(r, w) <==> w == v
  {
    Remainder(w - r.from, (v - r.from) / r.step, w - v, r.step);
  }

  lemma NextMultiple(r: Range, v: int)
    requires OnStep(r, v)
    ensures OnStep(r, v + r.step)
  {
    var q := (v - r.from) / r.step;
    assert (q + 1) * r.step == q * r.step + r.step;
    Remainder(v + r.step - r.from, q + 1, 0, r.step);
  }

  /** A second value means the step is small. */
  lemma StepSmall(r: Range, v: int)
    requires v > r.from && OnStep(r, v)
    ensures r.step <= v - r.from
  {
    if v < r.from + r.step {
      Remainder(v - r.from, 0, v - r.from, r.step);
    }
  }

  /** The values of the progression below `v`, the next to add; or the step took `v` past the largest integer. */
  ghost predicate Collected(r: Range, bits: Mask, v: int) {
    if v < 0 then Wraps(r)
    else
      && r.from <= v < INT64_LIMIT && OnStep(r, v) && (v > r.from ==> !Wraps(r))
      && forall w :: w in bits <==> InRange(r, w) && w < v
  }

  lemma StartCollected(r: Range)
    requires 0 <= r.from < INT64_LIMIT && r.step > 0
    ensures Collected(r, {}, r.from)
  {
    Remainder(0, 0, 0, r.step);
  }

  lemma CollectedStep(r: Range, bits: Mask, v: int)
    requires Collected(r, bits, v) && 0 <= v <= r.to < 64 && 0 <= r.from && 0 < r.step < INT64_LIMIT
    ensures Collected(r, bits + {v}, Wrapped(v + r.step))
    ensures Wrapped(v + r.step) < 0 || Wrapped(v + r.step) > v
  {
    forall w | v <= w < v + r.step
      ensures OnStep(r, w) <==> w == v
    {
      NothingBetween(r, v, w);
    }
    NextMultiple(r, v);
    if v > r.from {
      StepSmall(r, v);
    }
  }

  lemma AllCollected(r: Range, bits: Mask, v: int)
    requires Collected(r, bits, v) && 0 <= r.from <= r.to < v
    ensures !Wraps(r) && forall w :: w in bits <==> InRange(r, w)
  {
  }

  /** The mask of a progression. False means the program crashed: a shift by a negative count. */
  method RangeBits(r: Range, lo: int, hi: int) returns (bits: Mask, ok: bool)
    requires 0 <= lo && hi < 64 && WellFormed(r, lo, hi)
    ensures ok <==> !Wraps(r)
    ensures ok ==> forall w :: w in bits <==> InRange(r, w)
  {
    bits := {};
    var v := r.from;
    StartCollected(r);
    while v <= r.to
      invariant Collected(r, bits, v)
      decreases if v < 0 then 0 else 1 + r.to - v
    {
      if v < 0 {
        return bits, false;
      }
      CollectedStep(r, bits, v);
      bits, v := bits + {v}, Wrapped(v + r.step);
    }
    AllCollected(r, bits, v);
    ok := true;
  }

  // ---------------------------------------------------------------- a whole schedule

  /** How parsing a schedule ends. */
  datatype Verdict = Fine | Bad | Crash

  function PartVerdict(part: string, i: nat): Verdict {
    var r := ParsePart(part, Low(i), High(i));
    if r.None? then Bad else if Wraps(r.value) then Crash else Fine
  }

  /** The first verdict that isn't fine decides. */
  function FirstNotFine(vs: seq<Verdict>): Verdict {
    if vs == [] then Fine else if vs[0] != Fine then vs[0] else FirstNotFine(vs[1..])
  }

  function PartVerdicts(parts: seq<string>, i: nat): seq<Verdict> {
    seq(|parts|, k requires 0 <= k < |parts| => PartVerdict(parts[k], i))
  }

  function FieldVerdict(field: string, i: nat): Verdict {
    FirstNotFine(PartVerdicts(Split(field), i))
  }

  function FieldVerdicts(fields: seq<string>): seq<Verdict> {
    seq(|fields|, i requires 0 <= i < |fields| => FieldVerdict(fields[i], i))
  }

  function VerdictOf(expr: string): Verdict {
    if |Fields(expr)| != 5 then Bad else FirstNotFine(FieldVerdicts(Fields(expr)))
  }

  predicate PartAllows(part: string, i: nat, v: int) {
    var r := ParsePart(part, Low(i), High(i));
    r.Some? && InRange(r.value, v)
  }

  /** One of the first `n` parts allows `v`. */
  predicate PartsAllow(parts: seq<string>, n: nat, i: nat, v: int) {
    exists k :: 0 <= k < n && k < |parts| && PartAllows(parts[k], i, v)
  }

  /** Some part of the field allows `v`. */
  predicate FieldAllows(field: string, i: nat, v: int) {
    PartsAllow(Split(field), |Split(field)|, i, v)
  }

  /** One more part allows what it allows. */
  lemma OneMorePart(parts: seq<string>, n: nat, i: nat, v: int)
    requires n < |parts|
    ensures PartsAllow(parts, n + 1, i, v) <==> PartsAllow(parts, n, i, v) || PartAllows(parts[n], i, v)
  {
  }

  method PartBits(part: string, i: nat) returns (bits: Mask, o: Verdict)
    ensures o == PartVerdict(part, i)
    ensures o.Fine? ==> forall v :: v in bits <==> 0 <= v && PartAllows(part, i, v)
  {
    var r := ParsePart(part, Low(i), High(i));
    if r.None? {
      return {}, Bad;
    }
    PartWellFormed(part, Low(i), High(i));
    var ok;
    bits, ok := RangeBits(r.value, Low(i), High(i));
    o := if ok then Fine else Crash;
  }

  method FieldBits(field: string, i: nat) returns (bits: Mask, o: Verdict)
    ensures o == FieldVerdict(field, i)
    ensures o.Fine? ==> forall v :: v in bits <==> 0 <= v && FieldAllows(field, i, v)
  {
    var parts := Split(field);
    ghost var vs := PartVerdicts(parts, i);
    bits := {};
    for k := 0 to |parts|
      invariant FirstNotFine(vs) == FirstNotFine(vs[k..])
      invariant forall v :: v in bits <==> 0 <= v && PartsAllow(parts, k, i, v)
    {
      assert vs[k..][0] == PartVerdict(parts[k], i) && vs[k..][1..] == vs[k + 1..];
      var more, p := PartBits(parts[k], i);
      if !p.Fine? {
        return bits, p;
      }
      forall v
        ensures v in bits + more <==> 0 <= v && PartsAllow(parts, k + 1, i, v)
      {
        OneMorePart(parts, k, i, v);
      }
      bits := bits + more;
    }
    o := Fine;
  }

  /** The mask of a field. */
  ghost predicate IsMask(bits: Mask, field: string, i: nat) {
    forall v :: v in bits <==> 0 <= v && FieldAllows(field, i, v)
  }

  /** The masks of the first fields. */
  ghost predicate AreMasks(spec: seq<Mask>, fields: seq<string>) {
    |spec| <= |fields| && forall j :: 0 <= j < |spec| ==> IsMask(spec[j], fields[j], j)
  }

  lemma MoreMasks(spec: seq<Mask>, bits: Mask, fields: seq<string>)
    requires AreMasks(spec, fields) && |spec| < |fields| && IsMask(bits, fields[|spec|], |spec|)
    ensures AreMasks(spec + [bits], fields)
  {
    var more := spec + [bits];
    forall j | 0 <= j < |more|
      ensures IsMask(more[j], fields[j], j)
    {
      if j < |spec| {
        assert more[j] == spec[j] && IsMask(spec[j], fields[j], j);
      } else {
        assert more[j] == bits;
      }
    }
  }

  /** On the weekday's mask, 7 is Sunday too. */
  function WithSunday(spec: seq<Mask>): seq<Mask>
    requires |spec| == 5
  {
    if 7 in spec[WEEKDAY] then spec[WEEKDAY := spec[WEEKDAY] + {0}] else spec
  }

  lemma {:induction false} MasksAllow(spec: seq<Mask>, expr: string, i: nat)
    requires |Fields(expr)| == 5 == |spec| && i < 5 && AreMasks(spec, Fields(expr))
    ensures forall v :: 0 <= v ==> (v in WithSunday(spec)[i] <==> Allows(expr, i, v))
  {
    assert IsMask(spec[i], Fields(expr)[i], i);
  }

  /** The masks of the five fields. */
  method ParseCron(expr: string) returns (spec: seq<Mask>, o: Verdict)
    ensures o == VerdictOf(expr)
    ensures o.Fine? ==> |spec| == 5 && forall i, v :: 0 <= i < 5 && 0 <= v ==> (v in spec[i] <==> Allows(expr, i, v))
  {
    var fields := Fields(expr);
    ghost var vs := FieldVerdicts(fields);
    spec := [];
    if |fields| != 5 {
      return spec, Bad;
    }
    for i := 0 to 5
      invariant |spec| == i && FirstNotFine(vs) == FirstNotFine(vs[i..])
      invariant AreMasks(spec, fields)
    {
      assert vs[i..][0] == FieldVerdict(fields[i], i) && vs[i..][1..] == vs[i + 1..];
      var bits, p := FieldBits(fields[i], i);
      if !p.Fine? {
        return spec, p;
      }
      MoreMasks(spec, bits, fields);
      spec := spec + [bits];
    }
    forall i | 0 <= i < 5
      ensures forall v :: 0 <= v ==> (v in WithSunday(spec)[i] <==> Allows(expr, i, v))
    {
      MasksAllow(spec, expr, i);
    }
    spec, o := WithSunday(spec), Fine;
  }

  /** Field `i` of the schedule allows `v`; for weekdays, 7 counts as 0 too. */
  predicate Allows(expr: string, i: nat, v: nat)
    requires |Fields(expr)| == 5 && i < 5
  {
    var f := Fields(expr)[i];
    FieldAllows(f, i, v) || (i == WEEKDAY && v == 0 && FieldAllows(f, i, 7))
  }

  /** A time's minute, hour, day, month and weekday. */
  predicate IsTime(t: seq<nat>) {
    |t| == 5 && forall i :: 0 <= i < 5 ==> Low(i) <= t[i] <= High(i) && (i == WEEKDAY ==> t[i] < 7)
  }

  /** Every field allows the time. */
  predicate Meets(expr: string, t: seq<nat>)
    requires IsTime(t)
  {
    VerdictOf(expr).Fine? && forall i :: 0 <= i < 5 ==> Allows(expr, i, t[i])
  }

  /** Whether the time falls on the schedule; an invalid one never matches. */
  method Matches(expr: string, t: seq<nat>) returns (b: bool, crashed: bool)
    requires IsTime(t)
    ensures crashed <==> VerdictOf(expr).Crash?
    ensures b <==> Meets(expr, t)
  {
    var spec, o := ParseCron(expr);
    crashed := o.Crash?;
    if !o.Fine? {
      return false, crashed;
    }
    for i := 0 to 5
      invariant forall j :: 0 <= j < i ==> Allows(expr, j, t[j])
    {
      if t[i] !in spec[i] {
        return false, false;
      }
    }
    b := true;
  }

  // ---------------------------------------------------------------- what it amounts to

  lemma ModSeven(p: int -> bool, d: nat)
    requires d < 7
    ensures p(d) || (d == 0 && p(7)) <==> exists v :: 0 <= v <= 7 && v % 7 == d && p(v)
  {
    if p(d) {
      assert d % 7 == d;
    }
    if d == 0 && p(7) {
      assert 7 % 7 == d;
    }
  }

  /** A weekday is allowed if the field's progressions contain it, counting modulo 7. */
  lemma WeekdayModSeven(expr: string, t: seq<nat>)
    requires IsTime(t) && |Fields(expr)| == 5
    ensures Allows(expr, WEEKDAY, t[WEEKDAY]) <==>
      exists v :: 0 <= v <= 7 && v % 7 == t[WEEKDAY] && FieldAllows(Fields(expr)[WEEKDAY], WEEKDAY, v)
  {
    var f := Fields(expr)[WEEKDAY];
    var p := (v: int) => FieldAllows(f, WEEKDAY, v);
    ModSeven(p, t[WEEKDAY]);
    assert forall v :: p(v) == FieldAllows(f, WEEKDAY, v);
  }

  lemma {:induction false} FirstCrash(vs: seq<Verdict>)
    ensures FirstNotFine(vs).Crash? <==>
      exists k :: 0 <= k < |vs| && vs[k].Crash? && forall j :: 0 <= j < k ==> vs[j].Fine?
  {
    if vs != [] {
      var rest := vs[1..];
      FirstCrash(rest);
      if k :| 0 <= k < |rest| && rest[k].Crash? && forall j :: 0 <= j < k ==> rest[j].Fine? {
        assert vs[k + 1].Crash? && forall j :: 0 < j < k + 1 ==> vs[j] == rest[j - 1];
      }
      if k :| 0 <= k < |vs| && vs[k].Crash? && forall j :: 0 <= j < k ==> vs[j].Fine? {
        assert k > 0 ==> rest[k - 1].Crash? && forall j :: 0 <= j < k - 1 ==> rest[j] == vs[j + 1];
      }
    }
  }

  lemma {:induction false} AllFine(vs: seq<Verdict>)
    ensures FirstNotFine(vs).Fine? <==> forall k :: 0 <= k < |vs| ==> vs[k].Fine?
  {
    if vs != [] {
      AllFine(vs[1..]);
      assert forall k :: 0 < k < |vs| ==> vs[k] == vs[1..][k - 1];
    }
  }

  /** A part follows the syntax, and its start and step together pass the largest integer. */
  predicate Overflows(part: string, i: nat) {
    var r := ParsePart(part, Low(i), High(i));
    r.Some? && Wraps(r.value)
  }

  /** A part follows the syntax, and its start and step together are an integer. */
  predicate Usable(part: string, i: nat) {
    ParsePart(part, Low(i), High(i)).Some? && !Overflows(part, i)
  }

  /** The first `n` parts can be used. */
  predicate AllUsable(parts: seq<string>, n: nat, i: nat) {
    forall k :: 0 <= k < n && k < |parts| ==> Usable(parts[k], i)
  }

  /** Part `k` of field `i` overflows, and all parts before it, in this field and earlier ones, can be used. */
  predicate FirstOverflow(fields: seq<string>, i: nat, k: nat) {
    && i < |fields| && OverflowAt(Split(fields[i]), i, k)
    && forall j :: 0 <= j < i ==> AllUsable(Split(fields[j]), |Split(fields[j])|, j)
  }

  /** Part `k` of a field overflows, and those before it can be used. */
  predicate OverflowAt(parts: seq<string>, i: nat, k: nat) {
    k < |parts| && Overflows(parts[k], i) && AllUsable(parts, k, i)
  }

  lemma PartMeans(part: string, i: nat)
    ensures PartVerdict(part, i).Crash? <==> Overflows(part, i)
    ensures PartVerdict(part, i).Fine? <==> Usable(part, i)
  {
  }

  lemma UsableMeans(parts: seq<string>, n: nat, i: nat)
    requires n <= |parts|
    ensures AllUsable(parts, n, i) <==> forall k :: 0 <= k < n ==> PartVerdicts(parts, i)[k].Fine?
  {
    forall k | 0 <= k < n
      ensures Usable(parts[k], i) <==> PartVerdicts(parts, i)[k].Fine?
    {
      PartMeans(parts[k], i);
    }
  }

  lemma OverflowMeans(parts: seq<string>, i: nat, k: nat)
    requires k < |parts|
    ensures OverflowAt(parts, i, k) <==>
      PartVerdicts(parts, i)[k].Crash? && forall j :: 0 <= j < k ==> PartVerdicts(parts, i)[j].Fine?
  {
    PartMeans(parts[k], i);
    UsableMeans(parts, k, i);
  }

  lemma FieldCrash(parts: seq<string>, i: nat)
    ensures FirstNotFine(PartVerdicts(parts, i)).Crash? <==> exists k :: OverflowAt(parts, i, k)
    ensures FirstNotFine(PartVerdicts(parts, i)).Fine? <==> AllUsable(parts, |parts|, i)
  {
    var vs := PartVerdicts(parts, i);
    FirstCrash(vs);
    AllFine(vs);
    UsableMeans(parts, |parts|, i);
    if k :| 0 <= k < |vs| && vs[k].Crash? && forall j :: 0 <= j < k ==> vs[j].Fine? {
      OverflowMeans(parts, i, k);
    }
    if k :| OverflowAt(parts, i, k) {
      OverflowMeans(parts, i, k);
    }
  }

  lemma FieldsUsable(fields: seq<string>, n: nat)
    requires n <= |fields|
    ensures (forall j :: 0 <= j < n ==> AllUsable(Split(fields[j]), |Split(fields[j])|, j))
      <==> forall j :: 0 <= j < n ==> FieldVerdicts(fields)[j].Fine?
  {
    forall j | 0 <= j < n
      ensures AllUsable(Split(fields[j]), |Split(fields[j])|, j) <==> FieldVerdicts(fields)[j].Fine?
    {
      FieldCrash(Split(fields[j]), j);
    }
  }

  lemma FirstOverflowMeans(fields: seq<string>, i: nat)
    requires i < |fields|
    ensures (exists k :: FirstOverflow(fields, i, k)) <==>
      FieldVerdicts(fields)[i].Crash? && forall j :: 0 <= j < i ==> FieldVerdicts(fields)[j].Fine?
  {
    FieldsUsable(fields, i);
    FieldCrash(Split(fields[i]), i);
    if FieldVerdicts(fields)[i].Crash? && forall j :: 0 <= j < i ==> FieldVerdicts(fields)[j].Fine? {
      var k :| OverflowAt(Split(fields[i]), i, k);
      assert FirstOverflow(fields, i, k);
    }
  }

  lemma SomeFieldCrashes(fields: seq<string>)
    ensures FirstNotFine(FieldVerdicts(fields)).Crash? <==> exists i, k :: FirstOverflow(fields, i, k)
  {
    var vs := FieldVerdicts(fields);
    FirstCrash(vs);
    if i :| 0 <= i < |vs| && vs[i].Crash? && forall j :: 0 <= j < i ==> vs[j].Fine? {
      FirstOverflowMeans(fields, i);
      var k :| FirstOverflow(fields, i, k);
    }
    if i, k :| FirstOverflow(fields, i, k) {
      FirstOverflowMeans(fields, i);
    }
  }

  /**
   * A schedule crashes the program exactly when it has five fields and its first part that
   * can't be used follows the syntax: the part's start and step pass the largest integer.
   */
  lemma CrashesExactly(expr: string)
    ensures VerdictOf(expr).Crash? <==> |Fields(expr)| == 5 && exists i, k :: FirstOverflow(Fields(expr), i, k)
  {
    SomeFieldCrashes(Fields(expr));
  }

  /** Such parts exist, and follow every rule of the syntax: a start, and a step that is a whole number above 0. */
  lemma CrashExists()
    ensures PartVerdict("1/" + Digits((INT64_LIMIT - 1) as nat), 0).Crash?
  {
    var step := Digits((INT64_LIMIT - 1) as nat);
    assert "1/" + step == "1" + ['/'] + step;
    CutAt("1", '/', step);
    ParseDigits((INT64_LIMIT - 1) as nat);
    OneBounds();
  }

  lemma OneBounds()
    ensures Bounds("1", 0, 59, true) == Some((1, 59))
  {
    OneParses();
  }

  lemma OneParses()
    ensures Cut("1", '-') == ("1", "") && ParseInt("1") == Some(1)
  {
    assert "1"[1..] == "" && Before("", '-') == "";
    assert Before("1", '-') == "1";
    assert "1"[..0] == "" && ValueOf("1"[..0]) == 0;
  }
}
