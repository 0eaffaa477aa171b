/** Schedules as they are written: printed from their meaning, they are read back with just that meaning. */
module CronForms {
  import opened Transfer
  import opened Parsing
  import opened Cron
  import WalFiles

  // ---------------------------------------------------------------- what can be written

  /** Every value, one value, or all from one to another. */
  datatype Shape = Star | One(a: nat) | Span(a: nat, b: nat)

  /** A part of a field; with a step, it goes on from its start (a single value, to the field's end). */
  datatype Part = Part(shape: Shape, step: Option<nat>)

  /** What a field may hold: minutes, hours, days, months, weekdays. */
  function Least(i: nat): nat {
    if i in {2, 3} then 1 else 0
  }

  function Most(i: nat): nat {
    match i
    case 0 => 59
    case 1 => 23
    case 2 => 31
    case 3 => 12
    case _ => 7
  }

  /** Numbers of the field, in order; a step above 0 that a 64-bit number can take from the start. */
  predicate Proper(part: Part, i: nat) {
    && match part.shape {
         case Star => true
         case One(a) => Least(i) <= a <= Most(i)
         case Span(a, b) => Least(i) <= a <= b <= Most(i)
       }
    && (part.step.Some? ==> 0 < part.step.value && Start(part, i) + part.step.value < INT64_LIMIT)
  }

  function Start(part: Part, i: nat): nat {
    if part.shape.Star? then Least(i) else part.shape.a
  }

  function End(part: Part, i: nat): nat {
    match part.shape
    case Star => Most(i)
    case One(a) => if part.step.Some? then Most(i) else a
    case Span(_, b) => b
  }

  /** The values a part means. */
  predicate Means(part: Part, i: nat, v: int) {
    Start(part, i) <= v <= End(part, i) && (part.step.Some? && part.step.value > 0 ==>
      (v - Start(part, i)) % part.step.value == 0)
  }

  function ShapeText(s: Shape): string {
    match s
    case Star => "*"
    case One(a) => Digits(a)
    case Span(a, b) => Digits(a) + ['-'] + Digits(b)
  }

  function PartText(part: Part): string {
    if part.step.None? then ShapeText(part.shape) else ShapeText(part.shape) + ['/'] + Digits(part.step.value)
  }

  // ---------------------------------------------------------------- one part

  lemma DigitsLack(n: nat, c: char)
    requires !('0' <= c <= '9')
    ensures c !in Digits(n) && Digits(n) != "" && Digits(n)[0] != c
  {
  }

  lemma CutWhole(s: string, c: char)
    requires c !in s
    ensures Cut(s, c) == (s, "")
  {
  }

  lemma NumberRead(n: nat, i: nat)
    requires Least(i) <= n <= Most(i)
    ensures Number(Digits(n), Low(i), High(i)) == Some(n)
  {
    ParseDigits(n);
  }

  lemma ShapeRead(part: Part, i: nat)
    requires Proper(part, i)
    ensures Bounds(ShapeText(part.shape), Low(i), High(i), part.step.Some?) == Some((Start(part, i), End(part, i)))
  {
    match part.shape
    case Star =>
    case One(a) =>
      DigitsLack(a, '-');
      DigitsLack(a, '*');
      CutWhole(Digits(a), '-');
      NumberRead(a, i);
    case Span(a, b) =>
      DigitsLack(a, '-');
      DigitsLack(a, '*');
      CutAt(Digits(a), '-', Digits(b));
      NumberRead(a, i);
      NumberRead(b, i);
      assert ShapeText(part.shape)[0] == Digits(a)[0];
  }

  lemma ShapeLacks(s: Shape, c: char)
    requires !('0' <= c <= '9') && c != '*' && c != '-'
    ensures c !in ShapeText(s)
  {
    match s
    case Star =>
    case One(a) => DigitsLack(a, c);
    case Span(a, b) =>
      DigitsLack(a, c);
      DigitsLack(b, c);
  }

  lemma PartRead(part: Part, i: nat)
    requires Proper(part, i)
    ensures ParsePart(PartText(part), Low(i), High(i)) ==
      Some(Range(Start(part, i), End(part, i), if part.step.Some? then part.step.value else 1))
  {
    var text := ShapeText(part.shape);
    ShapeRead(part, i);
    ShapeLacks(part.shape, '/');
    if part.step.Some? {
      CutAt(text, '/', Digits(part.step.value));
      ParseDigits(part.step.value);
    } else {
      CutWhole(text, '/');
    }
  }

  /** A part, as written, is fine, and allows just the values it means. */
  lemma PartMeans(part: Part, i: nat, v: int)
    requires Proper(part, i)
    ensures PartVerdict(PartText(part), i).Fine? && (PartAllows(PartText(part), i, v) <==> Means(part, i, v))
  {
    PartRead(part, i);
    if part.step.None? {
      EveryStep(v - Start(part, i));
    }
  }

  lemma EveryStep(x: int)
    ensures x % 1 == 0
  {
  }

  // ---------------------------------------------------------------- fields

  /** Parts with commas between them. */
  function FieldText(parts: seq<Part>): string {
    if parts == [] then "" else if |parts| == 1 then PartText(parts[0])
      else PartText(parts[0]) + [','] + FieldText(parts[1..])
  }

  function Texts(parts: seq<Part>): seq<string> {
    seq(|parts|, k requires 0 <= k < |parts| => PartText(parts[k]))
  }

  lemma PartLacks(part: Part, c: char)
    requires !('0' <= c <= '9') && c !in {'*', '-', '/'}
    ensures c !in PartText(part)
  {
    ShapeLacks(part.shape, c);
    if part.step.Some? {
      DigitsLack(part.step.value, c);
    }
  }

  lemma SplitMore(first: string, rest: string)
    requires ',' !in first
    ensures Split(first + [','] + rest) == [first] + Split(rest)
  {
    CutAt(first, ',', rest);
    assert |first| < |first + [','] + rest|;
  }

  lemma PartTextsMore(first: Part, rest: seq<Part>)
    ensures Texts([first] + rest) == [PartText(first)] + Texts(rest)
  {
    var parts := [first] + rest;
    assert |Texts(parts)| == 1 + |rest|;
    forall k | 0 <= k < |rest|
      ensures Texts(parts)[k + 1] == Texts(rest)[k]
    {
      assert parts[k + 1] == rest[k];
    }
  }

  lemma {:induction false} FieldRead(parts: seq<Part>)
    requires parts != []
    ensures Split(FieldText(parts)) == Texts(parts)
    decreases |parts|
  {
    PartLacks(parts[0], ',');
    if |parts| == 1 {
      CutWhole(PartText(parts[0]), ',');
    } else {
      FieldRead(parts[1..]);
      assert parts == [parts[0]] + parts[1..];
      PartTextsMore(parts[0], parts[1..]);
      SplitMore(PartText(parts[0]), FieldText(parts[1..]));
    }
  }

  /** A field, as written, is fine and allows what some part of it means. */
  lemma FieldMeans(parts: seq<Part>, i: nat, v: int)
    requires parts != [] && forall k :: 0 <= k < |parts| ==> Proper(parts[k], i)
    ensures FieldVerdict(FieldText(parts), i).Fine?
    ensures FieldAllows(FieldText(parts), i, v) <==> exists k :: 0 <= k < |parts| && Means(parts[k], i, v)
  {
    FieldRead(parts);
    var texts := Texts(parts);
    var vs := PartVerdicts(texts, i);
    forall k | 0 <= k < |parts|
      ensures vs[k].Fine? && (PartAllows(texts[k], i, v) <==> Means(parts[k], i, v))
    {
      PartMeans(parts[k], i, v);
    }
    AllFine(vs);
  }

  // ---------------------------------------------------------------- a whole schedule

  /** Fields with a blank between them. */
  function ScheduleText(fields: seq<seq<Part>>): string {
    if fields == [] then "" else if |fields| == 1 then FieldText(fields[0])
    else FieldText(fields[0]) + [' '] + ScheduleText(fields[1..])
  }

  function FieldTexts(fields: seq<seq<Part>>): seq<string> {
    seq(|fields|, i requires 0 <= i < |fields| => FieldText(fields[i]))
  }

  /** A word: not empty, and without blanks. */
  predicate Word(s: string) {
    s != "" && forall c :: c in s ==> !IsBlank(c)
  }

  lemma {:induction false} FieldIsWord(parts: seq<Part>)
    requires parts != []
    ensures Word(FieldText(parts))
    decreases |parts|
  {
    forall c | IsBlank(c)
      ensures c !in PartText(parts[0])
    {
      PartLacks(parts[0], c);
    }
    NotEmpty(parts[0]);
    if |parts| > 1 {
      FieldIsWord(parts[1..]);
    }
  }

  lemma NotEmpty(part: Part)
    ensures PartText(part) != ""
  {
  }

  lemma {:induction false} WordRead(s: string, word: string, rest: string)
    requires forall c :: c in s ==> !IsBlank(c)
    requires word + s != ""
    ensures WordsOf(s, word) == [word + s] && WordsOf(s + [' '] + rest, word) == [word + s] + WordsOf(rest, "")
    decreases |s|
  {
    var t := s + [' '] + rest;
    if s == "" {
      assert word + s == word && t[0] == ' ' && t[1..] == rest;
    } else {
      assert s[0] in s && t[0] == s[0] && t[1..] == s[1..] + [' '] + rest;
      assert word + [s[0]] + s[1..] == word + s;
      WordRead(s[1..], word + [s[0]], rest);
    }
  }

  lemma FieldsMore(first: string, rest: string)
    requires Word(first)
    ensures Fields(first + [' '] + rest) == [first] + Fields(rest) && Fields(first) == [first]
  {
    WordRead(first, "", rest);
    assert "" + first == first;
  }

  lemma ScheduleMore(fields: seq<seq<Part>>)
    requires |fields| > 1
    ensures ScheduleText(fields) == FieldText(fields[0]) + [' '] + ScheduleText(fields[1..])
  {
  }

  lemma TextsMore(fields: seq<seq<Part>>)
    requires fields != []
    ensures FieldTexts(fields) == [FieldText(fields[0])] + FieldTexts(fields[1..])
  {
  }

  lemma {:induction false} ScheduleRead(fields: seq<seq<Part>>)
    requires fields != [] && forall i :: 0 <= i < |fields| ==> fields[i] != []
    ensures Fields(ScheduleText(fields)) == FieldTexts(fields)
    decreases |fields|
  {
    FieldIsWord(fields[0]);
    if |fields| == 1 {
      FieldsMore(FieldText(fields[0]), "");
    } else {
      ScheduleRead(fields[1..]);
      ScheduleMore(fields);
      TextsMore(fields);
      FieldsMore(FieldText(fields[0]), ScheduleText(fields[1..]));
    }
  }

  /** Five fields of proper parts. */
  predicate ProperSchedule(fields: seq<seq<Part>>) {
    |fields| == 5 && forall i, k :: 0 <= i < 5 && 0 <= k < |fields[i]| ==> Proper(fields[i][k], i)
  }

  /** Some part of field `i` means `v`; on weekdays, 7 is Sunday, 0. */
  predicate FieldHas(parts: seq<Part>, i: nat, v: nat) {
    exists k :: 0 <= k < |parts| && (Means(parts[k], i, v) || (i == 4 && v == 0 && Means(parts[k], i, 7)))
  }

  lemma FieldAllowed(fields: seq<seq<Part>>, i: nat, v: nat)
    requires ProperSchedule(fields) && i < 5 && forall j :: 0 <= j < 5 ==> fields[j] != []
    requires Fields(ScheduleText(fields)) == FieldTexts(fields)
    ensures Allows(ScheduleText(fields), i, v) <==> FieldHas(fields[i], i, v)
  {
    FieldMeans(fields[i], i, v);
    FieldMeans(fields[i], i, 7);
    if FieldHas(fields[i], i, v) {
      var k :| 0 <= k < |fields[i]| && (Means(fields[i][k], i, v) || (i == 4 && v == 0 && Means(fields[i][k], i, 7)));
    }
  }

  /**
   * A schedule written from its meaning matches a time exactly if in each field some part means
   * the time's value.
   */
  lemma ScheduleMeans(fields: seq<seq<Part>>, t: seq<nat>)
    requires ProperSchedule(fields) && (forall i :: 0 <= i < 5 ==> fields[i] != []) && IsTime(t)
    ensures Meets(ScheduleText(fields), t) <==> forall i :: 0 <= i < 5 ==> FieldHas(fields[i], i, t[i])
  {
    var expr := ScheduleText(fields);
    ScheduleRead(fields);
    var vs := FieldVerdicts(Fields(expr));
    forall i | 0 <= i < 5
      ensures vs[i].Fine? && (Allows(expr, i, t[i]) <==> FieldHas(fields[i], i, t[i]))
    {
      FieldMeans(fields[i], i, t[i]);
      FieldAllowed(fields, i, t[i]);
    }
    AllFine(vs);
  }

  /** The six blanks a keyboard has separate fields; no character of a field does. */
  lemma BlanksSeparate(c: char)
    ensures c in "\t\n\r " || c as int in {0x0B, 0x0C} ==> IsBlank(c)
    ensures '0' <= c <= '9' || c in "*,-/+" ==> !IsBlank(c)
    ensures '!' <= c <= '~' ==> !IsBlank(c)
  {
  }

  /** Such times there are: any minute, hour, day of a month, month and day of a week. */
  lemma TimesExactly(t: seq<nat>)
    ensures IsTime(t) <==>
      |t| == 5 && t[0] <= 59 && t[1] <= 23 && 1 <= t[2] <= 31 && 1 <= t[3] <= 12 && t[4] <= 6
  {
  }
}
