/** The declarative validators of the GitHub types file: the repository
    record, its README-extended form and the user input form. They are
    written with a few Zod combinators, so this module gives those
    combinators a meaning (the parse statuses valid, dirty and aborted, the
    issues each check raises, object fields parsed in declaration order) and
    then states what the three schemas accept and which defaults they fill in.
    Zod's URL check is library behaviour and is an oracle parameter `isUrl`. */
module Schemas {
  import opened Js
  import Decimal

  /** A JavaScript value as the schemas receive it; numbers are integers here. */
  datatype Json =
    | Undefined
    | Null
    | Bool(b: bool)
    | Num(n: int)
    | Str(s: string)
    | Arr(items: seq<Json>)
    | Obj(fields: map<string, Json>)

  /** The refinements applied to a string, each with the schema's own message. */
  datatype StringCheck =
    | MinLength(min: nat, message: string)
    | Url(message: string)
    | DatePattern(message: string)   // the regular expression ^\d{4}-\d{2}-\d{2}$

  datatype Schema =
    | ZNumber
    | ZString(checks: seq<StringCheck>)
    | ZNullable(inner: Schema)
    | ZOptional(inner: Schema)
    | ZDefault(inner: Schema, fallback: Json)
    | ZLiteral(literal: Json)
    | ZOr(left: Schema, right: Schema)

  datatype IssueCode = InvalidType | TooSmall | InvalidString | InvalidLiteral | InvalidUnion

  /** A problem found in one value: its code, and the schema's own message when
      it gives one (`None` stands for Zod's built-in wording). */
  datatype Problem = Problem(code: IssueCode, message: Option<string>)

  /** A problem located at an object field (`""` for the object itself). */
  datatype Issue = Issue(path: string, problem: Problem)

  /** The status of parsing one value: valid, dirty (a value that failed a
      refinement check) or aborted (no value at all). */
  datatype Parsed = Valid(value: Json) | Dirty(value: Json, problems: seq<Problem>) | Aborted(problems: seq<Problem>)

  function ProblemsOf(p: Parsed): seq<Problem>
  {
    if p.Valid? then [] else p.problems
  }

  /** `^\d{4}-\d{2}-\d{2}$`: four digits, a dash, two digits, a dash, two
      digits, and nothing else. There is no calendar check. */
  predicate IsDateShape(s: string)
  {
    && |s| == 10
    && Decimal.IsDigit(s[0]) && Decimal.IsDigit(s[1]) && Decimal.IsDigit(s[2]) && Decimal.IsDigit(s[3])
    && s[4] == '-'
    && Decimal.IsDigit(s[5]) && Decimal.IsDigit(s[6])
    && s[7] == '-'
    && Decimal.IsDigit(s[8]) && Decimal.IsDigit(s[9])
  }

  /** A date-shaped string splits into its year, month and day digits. */
  lemma DateShapeSplits(s: string)
    requires IsDateShape(s)
    ensures s == s[..4] + "-" + s[5..7] + "-" + s[8..]
    ensures Decimal.AllDigits(s[..4]) && Decimal.AllDigits(s[5..7]) && Decimal.AllDigits(s[8..])
  {
    var year, month, day := s[..4], s[5..7], s[8..];
    assert year[0] == s[0] && year[1] == s[1] && year[2] == s[2] && year[3] == s[3];
    assert month[0] == s[5] && month[1] == s[6] && day[0] == s[8] && day[1] == s[9];
    assert s == year + "-" + month + "-" + day;
  }

  /** Four, two and two digits joined by dashes are date-shaped. */
  lemma DatePartsJoin(year: string, month: string, day: string)
    requires |year| == 4 && |month| == 2 && |day| == 2
    requires Decimal.AllDigits(year) && Decimal.AllDigits(month) && Decimal.AllDigits(day)
    ensures IsDateShape(year + "-" + month + "-" + day)
  {
    var s := year + "-" + month + "-" + day;
    assert s[0] == year[0] && s[1] == year[1] && s[2] == year[2] && s[3] == year[3] && s[4] == '-';
    assert s[5] == month[0] && s[6] == month[1] && s[7] == '-' && s[8] == day[0] && s[9] == day[1];
    assert Decimal.IsDigit(year[0]) && Decimal.IsDigit(year[1]) && Decimal.IsDigit(year[2]) && Decimal.IsDigit(year[3]);
    assert Decimal.IsDigit(month[0]) && Decimal.IsDigit(month[1]) && Decimal.IsDigit(day[0]) && Decimal.IsDigit(day[1]);
  }

  /** The date shape read as the regular expression's concatenation: four
      digits, a dash, two digits, a dash, two digits. */
  lemma DateShapeIsPattern(s: string)
    ensures IsDateShape(s) <==>
      exists year, month, day
        | && |year| == 4 && |month| == 2 && |day| == 2
          && Decimal.AllDigits(year) && Decimal.AllDigits(month) && Decimal.AllDigits(day)
        :: s == year + "-" + month + "-" + day
  {
    if IsDateShape(s) {
      DateShapeSplits(s);
    }
    if exists year, month, day
        | && |year| == 4 && |month| == 2 && |day| == 2
          && Decimal.AllDigits(year) && Decimal.AllDigits(month) && Decimal.AllDigits(day)
        :: s == year + "-" + month + "-" + day
    {
      var year, month, day
        :| && |year| == 4 && |month| == 2 && |day| == 2
           && Decimal.AllDigits(year) && Decimal.AllDigits(month) && Decimal.AllDigits(day)
           && s == year + "-" + month + "-" + day;
      DatePartsJoin(year, month, day);
    }
  }

  /** One string check: it fails when the string is shorter than the minimum,
      is not a URL, or does not match the date pattern, and a failure
      carries the schema's own message. */
  function CheckProblem(check: StringCheck, s: string, isUrl: string -> bool): (r: Option<Problem>)
    ensures r.None? <==> match check
      case MinLength(min, _) => min <= |s|
      case Url(_) => isUrl(s)
      case DatePattern(_) => IsDateShape(s)
    ensures r.Some? ==> r.value.message == Some(check.message)
  {
    match check
    case MinLength(min, message) => if |s| < min then Some(Problem(TooSmall, Some(message))) else None
    case Url(message) => if isUrl(s) then None else Some(Problem(InvalidString, Some(message)))
    case DatePattern(message) => if IsDateShape(s) then None else Some(Problem(InvalidString, Some(message)))
  }

  /** Every check runs; the problems of the failing ones are kept in order. */
  function StringProblems(checks: seq<StringCheck>, s: string, isUrl: string -> bool): (r: seq<Problem>)
    ensures r == [] <==> forall i | 0 <= i < |checks| :: CheckProblem(checks[i], s, isUrl).None?
  {
    if checks == [] then []
    else
      var first := CheckProblem(checks[0], s, isUrl);
      var rest := StringProblems(checks[1..], s, isUrl);
      assert forall i | 1 <= i < |checks| :: checks[i] == checks[1..][i - 1];
      if first.Some? then [first.value] + rest else rest
  }

  /** Parses one value. Only a valid result is free of problems. */
  function ParseValue(schema: Schema, v: Json, isUrl: string -> bool): (r: Parsed)
    ensures r.Valid? <==> ProblemsOf(r) == []
    decreases schema
  {
    match schema
    case ZNumber =>
      if v.Num? then Valid(v) else Aborted([Problem(InvalidType, None)])
    case ZString(checks) =>
      if !v.Str? then Aborted([Problem(InvalidType, None)])
      else
        var problems := StringProblems(checks, v.s, isUrl);
        if problems == [] then Valid(v) else Dirty(v, problems)
    case ZNullable(inner) =>
      if v == Null then Valid(Null) else ParseValue(inner, v, isUrl)
    case ZOptional(inner) =>
      if v == Undefined then Valid(Undefined) else ParseValue(inner, v, isUrl)
    case ZDefault(inner, fallback) =>
      ParseValue(inner, if v == Undefined then fallback else v, isUrl)
    case ZLiteral(literal) =>
      if v == literal then Valid(v) else Aborted([Problem(InvalidLiteral, None)])
    case ZOr(left, right) =>
      // the first valid option wins; failing that, the first dirty one; else a union issue
      var l := ParseValue(left, v, isUrl);
      var r := ParseValue(right, v, isUrl);
      if l.Valid? then l
      else if r.Valid? then r
      else if l.Dirty? then l
      else if r.Dirty? then r
      else Aborted([Problem(InvalidUnion, None)])
  }

  /** An object schema: its fields in declaration order. */
  type Shape = seq<(string, Schema)>

  function Keys(shape: Shape): set<string>
  {
    set i | 0 <= i < |shape| :: shape[i].0
  }

  /** No key is declared twice. */
  predicate DistinctKeys(shape: Shape)
  {
    forall i, j | 0 <= i < j < |shape| :: shape[i].0 != shape[j].0
  }

  lemma KeysCons(shape: Shape)
    requires shape != []
    ensures Keys(shape) == {shape[0].0} + Keys(shape[1..])
  {
    forall k | k in Keys(shape) ensures k in {shape[0].0} + Keys(shape[1..]) {
      var j :| 0 <= j < |shape| && shape[j].0 == k;
      if j > 0 {
        assert shape[1..][j - 1].0 == k;
      }
    }
    forall k | k in Keys(shape[1..]) ensures k in Keys(shape) {
      var j :| 0 <= j < |shape[1..]| && shape[1..][j].0 == k;
      assert shape[j + 1].0 == k;
    }
  }

  lemma KeysSnoc(shape: Shape, field: (string, Schema))
    ensures Keys(shape + [field]) == Keys(shape) + {field.0}
  {
    var whole := shape + [field];
    assert whole[|shape|].0 == field.0;
    forall k | k in Keys(whole) ensures k in Keys(shape) + {field.0} {
      var j :| 0 <= j < |whole| && whole[j].0 == k;
      if j < |shape| {
        assert shape[j].0 == k;
      }
    }
    forall k | k in Keys(shape) ensures k in Keys(whole) {
      var j :| 0 <= j < |shape| && shape[j].0 == k;
      assert whole[j].0 == k;
    }
  }

  /** A property of the input object; a missing key reads as `undefined`. */
  function Get(fields: map<string, Json>, key: string): Json
  {
    if key in fields then fields[key] else Undefined
  }

  function IssuesAt(key: string, problems: seq<Problem>): (r: seq<Issue>)
    ensures |r| == |problems|
    ensures forall i | 0 <= i < |r| :: r[i] == Issue(key, problems[i])
  {
    seq(|problems|, i requires 0 <= i < |problems| => Issue(key, problems[i]))
  }

  /** The result of parsing an object's fields: the output properties, the
      issues of every field in order, and whether some field aborted. */
  datatype FieldsResult = FieldsResult(out: map<string, Json>, issues: seq<Issue>, aborted: bool)

  /** A parsed field is written to the output when it has a value that is
      not `undefined`, or when its key was present in the input. */
  predicate Kept(p: Parsed, key: string, fields: map<string, Json>)
  {
    !p.Aborted? && (p.value != Undefined || key in fields)
  }

  /** Parses the fields in declaration order. Only keys of the shape reach
      the output (unknown keys are dropped), and an aborted field always
      leaves an issue behind. */
  function ParseFields(shape: Shape, fields: map<string, Json>, isUrl: string -> bool): (r: FieldsResult)
    ensures r.out.Keys <= Keys(shape)
    ensures r.aborted ==> r.issues != []
    decreases |shape|
  {
    if shape == [] then FieldsResult(map[], [], false)
    else
      KeysCons(shape);
      var key := shape[0].0;
      var p := ParseValue(shape[0].1, Get(fields, key), isUrl);
      var rest := ParseFields(shape[1..], fields, isUrl);
      FieldsResult(
        if Kept(p, key, fields) then rest.out[key := p.value] else rest.out,
        IssuesAt(key, ProblemsOf(p)) + rest.issues,
        p.Aborted? || rest.aborted)
  }

  /** The outcome of `schema.safeParse(input)`. */
  datatype Outcome = Success(data: map<string, Json>) | Failure(issues: seq<Issue>)

  /** A non-object input is a type issue at the root; otherwise the parse
      succeeds exactly when no field raised an issue. */
  function SafeParse(shape: Shape, input: Json, isUrl: string -> bool): (o: Outcome)
    ensures !input.Obj? ==> o == Failure([Issue("", Problem(InvalidType, None))])
    ensures input.Obj? ==>
      (o.Success? <==> forall i | 0 <= i < |shape| :: ParseValue(shape[i].1, Get(input.fields, shape[i].0), isUrl).Valid?)
    ensures o.Success? ==> o.data.Keys <= Keys(shape)
    ensures o.Failure? ==> o.issues != []
  {
    if !input.Obj? then Failure([Issue("", Problem(InvalidType, None))])
    else
      FieldsCleanIff(shape, input.fields, isUrl);
      var r := ParseFields(shape, input.fields, isUrl);
      if r.issues == [] then Success(r.out) else Failure(r.issues)
  }

  /** No field raises an issue exactly when every field parses as valid. */
  lemma {:induction false} FieldsCleanIff(shape: Shape, fields: map<string, Json>, isUrl: string -> bool)
    ensures ParseFields(shape, fields, isUrl).issues == [] <==>
      forall i | 0 <= i < |shape| :: ParseValue(shape[i].1, Get(fields, shape[i].0), isUrl).Valid?
    decreases |shape|
  {
    if shape != [] {
      FieldsCleanIff(shape[1..], fields, isUrl);
      assert forall i | 1 <= i < |shape| :: shape[i] == shape[1..][i - 1];
    }
  }

  /** The output of a clean parse: a field whose key no other field shares is
      written with its parsed value, unless that value is `undefined` and the
      key was absent from the input. */
  lemma {:induction false} FieldsOutput(shape: Shape, fields: map<string, Json>, isUrl: string -> bool, i: nat)
    requires i < |shape|
    requires forall j | 0 <= j < |shape| && j != i :: shape[j].0 != shape[i].0
    requires ParseFields(shape, fields, isUrl).issues == []
    ensures var key := shape[i].0;
      var p := ParseValue(shape[i].1, Get(fields, key), isUrl);
      var out := ParseFields(shape, fields, isUrl).out;
      p.Valid? && (key in out <==> p.value != Undefined || key in fields) && (key in out ==> out[key] == p.value)
    decreases |shape|
  {
    var p := ParseValue(shape[0].1, Get(fields, shape[0].0), isUrl);
    var rest := shape[1..];
    assert |IssuesAt(shape[0].0, ProblemsOf(p))| == |ProblemsOf(p)|;
    assert ParseFields(rest, fields, isUrl).issues == [];
    if i == 0 {
      KeysCons(shape);
      assert shape[0].0 !in Keys(rest);
    } else {
      FieldsOutput(rest, fields, isUrl, i - 1);
    }
  }

  /** Parsing a concatenated shape parses the two parts independently: the
      issues are those of the first part followed by those of the second, and
      the output properties of the first part are kept as they are. */
  lemma {:induction false} ParseFieldsAppend(base: Shape, extra: Shape, fields: map<string, Json>, isUrl: string -> bool)
    ensures var whole := ParseFields(base + extra, fields, isUrl);
      var b := ParseFields(base, fields, isUrl);
      var e := ParseFields(extra, fields, isUrl);
      whole == FieldsResult(e.out + b.out, b.issues + e.issues, b.aborted || e.aborted)
  {
    AppendOutputs(base, extra, fields, isUrl);
    AppendIssues(base, extra, fields, isUrl);
  }

  lemma {:induction false} AppendOutputs(base: Shape, extra: Shape, fields: map<string, Json>, isUrl: string -> bool)
    ensures ParseFields(base + extra, fields, isUrl).out
      == ParseFields(extra, fields, isUrl).out + ParseFields(base, fields, isUrl).out
    decreases |base|
  {
    if base == [] {
      assert base + extra == extra;
    } else {
      assert (base + extra)[0] == base[0];
      assert (base + extra)[1..] == base[1..] + extra;
      AppendOutputs(base[1..], extra, fields, isUrl);
      var key := base[0].0;
      var p := ParseValue(base[0].1, Get(fields, key), isUrl);
      var e := ParseFields(extra, fields, isUrl).out;
      var b' := ParseFields(base[1..], fields, isUrl).out;
      var rest := ParseFields(base[1..] + extra, fields, isUrl).out;
      assert rest == e + b';
      assert ParseFields(base + extra, fields, isUrl).out
          == if Kept(p, key, fields) then rest[key := p.value] else rest;
      assert ParseFields(base, fields, isUrl).out
          == if Kept(p, key, fields) then b'[key := p.value] else b';
      if Kept(p, key, fields) {
        UpdateAfterUnion(e, b', key, p.value);
      }
    }
  }

  lemma AppendAssociates<T>(a: seq<T>, b: seq<T>, c: seq<T>)
    ensures a + (b + c) == (a + b) + c
  {
  }

  /** Updating a union updates its right operand, which wins on shared keys. */
  lemma UpdateAfterUnion<K, V>(m: map<K, V>, n: map<K, V>, k: K, v: V)
    ensures (m + n)[k := v] == m + n[k := v]
  {
  }

  lemma {:induction false} AppendIssues(base: Shape, extra: Shape, fields: map<string, Json>, isUrl: string -> bool)
    ensures var whole := ParseFields(base + extra, fields, isUrl);
      var b := ParseFields(base, fields, isUrl);
      var e := ParseFields(extra, fields, isUrl);
      whole.issues == b.issues + e.issues && whole.aborted == (b.aborted || e.aborted)
    decreases |base|
  {
    if base == [] {
      assert base + extra == extra;
    } else {
      assert (base + extra)[0] == base[0];
      assert (base + extra)[1..] == base[1..] + extra;
      AppendIssues(base[1..], extra, fields, isUrl);
      var key := base[0].0;
      var p := ParseValue(base[0].1, Get(fields, key), isUrl);
      var e := ParseFields(extra, fields, isUrl);
      var b' := ParseFields(base[1..], fields, isUrl);
      var rest := ParseFields(base[1..] + extra, fields, isUrl);
      assert rest.issues == b'.issues + e.issues;
      assert ParseFields(base + extra, fields, isUrl).issues == IssuesAt(key, ProblemsOf(p)) + rest.issues;
      assert ParseFields(base, fields, isUrl).issues == IssuesAt(key, ProblemsOf(p)) + b'.issues;
      AppendAssociates(IssuesAt(key, ProblemsOf(p)), b'.issues, e.issues);
    }
  }

  /** Assigns property `key` of a shape object: an existing key keeps its
      place and takes the new schema, a new key is added at the end. */
  function Put(shape: Shape, key: string, schema: Schema): (r: Shape)
    ensures (key, schema) in r
    ensures key !in Keys(shape) ==> r == shape + [(key, schema)]
    ensures DistinctKeys(shape) && key in Keys(shape) ==>
      |r| == |shape| && forall i | 0 <= i < |shape| :: r[i] == (if shape[i].0 == key then (key, schema) else shape[i])
    decreases |shape|
  {
    if shape == [] then [(key, schema)]
    else if shape[0].0 == key then [(key, schema)] + shape[1..]
    else
      KeysCons(shape);
      DistinctKeysTail(shape);
      assert [shape[0]] + (shape[1..] + [(key, schema)]) == shape + [(key, schema)];
      [shape[0]] + Put(shape[1..], key, schema)
  }

  /** Assigning a property adds its key and removes none. */
  lemma {:induction false} PutKeys(shape: Shape, key: string, schema: Schema)
    ensures Keys(Put(shape, key, schema)) == Keys(shape) + {key}
    decreases |shape|
  {
    var r := Put(shape, key, schema);
    if shape == [] {
      KeysSnoc(shape, (key, schema));
    } else {
      KeysCons(shape);
      KeysCons(r);
      if shape[0].0 != key {
        assert r[1..] == Put(shape[1..], key, schema);
        PutKeys(shape[1..], key, schema);
      } else {
        assert r[1..] == shape[1..];
      }
    }
  }

  /** `base.extend(extra)`: Zod builds the new shape as `{...base, ...extra}`,
      assigning the extension's properties one by one. */
  function Extend(base: Shape, extra: Shape): Shape
    decreases |extra|
  {
    if extra == [] then base else Extend(Put(base, extra[0].0, extra[0].1), extra[1..])
  }

  /** The extended shape declares exactly the keys of both shapes. */
  lemma {:induction false} ExtendKeys(base: Shape, extra: Shape)
    ensures Keys(Extend(base, extra)) == Keys(base) + Keys(extra)
    decreases |extra|
  {
    if extra != [] {
      KeysCons(extra);
      PutKeys(base, extra[0].0, extra[0].1);
      ExtendKeys(Put(base, extra[0].0, extra[0].1), extra[1..]);
    }
  }

  /** The tail of a shape with distinct keys has distinct keys, and none of
      them is the head's key. */
  lemma DistinctKeysTail(shape: Shape)
    requires shape != []
    ensures DistinctKeys(shape) ==> DistinctKeys(shape[1..]) && shape[0].0 !in Keys(shape[1..])
  {
    if DistinctKeys(shape) {
      var tail := shape[1..];
      forall j | 0 <= j < |tail| ensures tail[j].0 != shape[0].0 {
        assert tail[j] == shape[j + 1];
      }
      forall i, j | 0 <= i < j < |tail| ensures tail[i].0 != tail[j].0 {
        assert tail[i] == shape[i + 1] && tail[j] == shape[j + 1];
      }
    }
  }

  /** One step of a fresh extension: the first new key is appended, and what
      remains is still fresh for the grown shape. */
  lemma FreshPut(base: Shape, extra: Shape)
    requires extra != []
    requires Keys(base) !! Keys(extra)
    requires DistinctKeys(extra)
    ensures Put(base, extra[0].0, extra[0].1) == base + [extra[0]]
    ensures Keys(base + [extra[0]]) !! Keys(extra[1..]) && DistinctKeys(extra[1..])
  {
    KeysCons(extra);
    KeysSnoc(base, extra[0]);
    DistinctKeysTail(extra);
  }

  /** Extending with new, distinct keys appends them in order. */
  lemma {:induction false} ExtendFreshKeys(base: Shape, extra: Shape)
    requires Keys(base) !! Keys(extra)
    requires DistinctKeys(extra)
    ensures Extend(base, extra) == base + extra
    decreases |extra|
  {
    if extra != [] {
      var grown := base + [extra[0]];
      FreshPut(base, extra);
      ExtendFreshKeys(grown, extra[1..]);
      SnocThenTail(base, extra);
    }
  }

  /** Moving the head of `s` to the end of `a` leaves the concatenation as it was. */
  lemma SnocThenTail<T>(a: seq<T>, s: seq<T>)
    requires s != []
    ensures (a + [s[0]]) + s[1..] == a + s
  {
    assert [s[0]] + s[1..] == s;
  }

  /** An extension key the base already has replaces the base schema, so the
      extended schema may accept what the base rejects: `{a: string}`
      extended with `{a: number}` accepts `{a: 1}`. */
  lemma ExtendOverridesBase(isUrl: string -> bool)
    ensures var base: Shape := [("a", ZString([]))];
      var extended := Extend(base, [("a", ZNumber)]);
      var input := Obj(map["a" := Num(1)]);
      && extended == [("a", ZNumber)]
      && SafeParse(extended, input, isUrl).Success?
      && SafeParse(base, input, isUrl).Failure?
  {
    var base: Shape := [("a", ZString([]))];
    assert Put(base, "a", ZNumber) == [("a", ZNumber)];
    var input := Obj(map["a" := Num(1)]);
    assert ParseValue(ZNumber, Get(input.fields, "a"), isUrl).Valid?;
    assert ParseValue(ZString([]), Get(input.fields, "a"), isUrl).Aborted?;
  }

  /** `base.extend(extra)` with new keys accepts only what `base` accepts,
      and agrees with it on every property `base` produces. */
  lemma ExtendPreservesBase(base: Shape, extra: Shape, input: Json, isUrl: string -> bool)
    requires Keys(base) !! Keys(extra)
    requires DistinctKeys(extra)
    requires SafeParse(Extend(base, extra), input, isUrl).Success?
    ensures SafeParse(base, input, isUrl).Success?
    ensures var b := SafeParse(base, input, isUrl).data;
      var w := SafeParse(Extend(base, extra), input, isUrl).data;
      forall k | k in b :: k in w && w[k] == b[k]
  {
    ExtendFreshKeys(base, extra);
    ParseFieldsAppend(base, extra, input.fields, isUrl);
  }

  // The schemas.

  const RepoNameMessage: string := "Repository name cannot be empty."
  const HtmlUrlMessage: string := "Invalid GitHub repository URL."
  const ContentsUrlMessage: string := "Invalid GitHub contents URL."
  const NoReadmeContent: string := "README.md 내용이 없습니다."
  const GithubIdMessage: string := "GitHub ID는 필수입니다."
  const BirthDateMessage: string := "생년월일 형식(YYYY-MM-DD)이 올바르지 않습니다."

  /** `z.string().nullable().default(null)` */
  const NullableText: Schema := ZDefault(ZNullable(ZString([])), Null)

  const RepoShape: Shape := [
    ("id", ZNumber),
    ("name", ZString([MinLength(1, RepoNameMessage)])),
    ("description", NullableText),
    ("language", NullableText),
    ("html_url", ZString([Url(HtmlUrlMessage)])),
    ("contents_url", ZString([Url(ContentsUrlMessage)])),
    ("created_at", ZString([])),
    ("updated_at", ZString([]))
  ]

  const ReadmeContentSchema: Schema := ZDefault(ZString([]), Str(NoReadmeContent))

  const ReadmeExtension: Shape := [("readme_content_html", ReadmeContentSchema)]

  /** `repoSchema.extend({ readme_content_html: ... })` */
  const PortfolioRepoShape: Shape := Extend(RepoShape, ReadmeExtension)

  /** The README field is new to the repository schema, so the extension
      appends it after the repository fields. */
  lemma PortfolioRepoShapeAppends()
    ensures PortfolioRepoShape == RepoShape + ReadmeExtension
  {
    assert Keys(ReadmeExtension) == {"readme_content_html"} by {
      KeysCons(ReadmeExtension);
    }
    assert "readme_content_html" !in Keys(RepoShape);
    ExtendFreshKeys(RepoShape, ReadmeExtension);
  }

  const GithubIdSchema: Schema := ZString([MinLength(1, GithubIdMessage)])

  /** `z.string().regex(...).optional().or(z.literal(''))` */
  const BirthDateSchema: Schema := ZOr(ZOptional(ZString([DatePattern(BirthDateMessage)])), ZLiteral(Str("")))

  const UserInputShape: Shape := [("githubId", GithubIdSchema), ("birthDate", BirthDateSchema)]

  /** `githubId` is accepted exactly when it is a non-empty string. */
  lemma GithubIdAccepted(v: Json, isUrl: string -> bool)
    ensures ParseValue(GithubIdSchema, v, isUrl).Valid? <==> v.Str? && v.s != ""
  {
    if v.Str? {
      assert StringProblems(GithubIdSchema.checks, v.s, isUrl) == StringProblems([MinLength(1, GithubIdMessage)], v.s, isUrl);
    }
  }

  /** `birthDate` is accepted exactly when it is absent, the empty string, or
      a string of the `dddd-dd-dd` shape. */
  lemma BirthDateAccepted(v: Json, isUrl: string -> bool)
    ensures ParseValue(BirthDateSchema, v, isUrl).Valid? <==>
      v == Undefined || v == Str("") || (v.Str? && IsDateShape(v.s))
  {
    DateStringParse(v, isUrl);
  }

  /** The first option of the `birthDate` union: an optional date-shaped string. */
  lemma DateStringParse(v: Json, isUrl: string -> bool)
    ensures var date := ZOptional(ZString([DatePattern(BirthDateMessage)]));
      ParseValue(date, v, isUrl)
      == if v == Undefined then Valid(Undefined)
         else if !v.Str? then Aborted([Problem(InvalidType, None)])
         else if IsDateShape(v.s) then Valid(v)
         else Dirty(v, [Problem(InvalidString, Some(BirthDateMessage))])
  {
    if v.Str? {
      assert StringProblems([DatePattern(BirthDateMessage)], v.s, isUrl)
          == if IsDateShape(v.s) then [] else [Problem(InvalidString, Some(BirthDateMessage))];
    }
  }

  /** A non-empty string of the wrong shape is reported with the schema's own
      message, not as a failed union. */
  lemma BirthDateShapeMessage(s: string, isUrl: string -> bool)
    requires s != "" && !IsDateShape(s)
    ensures ParseValue(BirthDateSchema, Str(s), isUrl) == Dirty(Str(s), [Problem(InvalidString, Some(BirthDateMessage))])
  {
    DateStringParse(Str(s), isUrl);
  }

  /** Only the shape is checked: "9999-99-99" is accepted. */
  lemma NoCalendarCheck(isUrl: string -> bool)
    ensures ParseValue(BirthDateSchema, Str("9999-99-99"), isUrl).Valid?
  {
    BirthDateAccepted(Str("9999-99-99"), isUrl);
  }

  /** The user input form is accepted exactly when both of its fields are. */
  lemma UserInputAccepted(fields: map<string, Json>, isUrl: string -> bool)
    ensures SafeParse(UserInputShape, Obj(fields), isUrl).Success? <==>
      && Get(fields, "githubId").Str? && Get(fields, "githubId").s != ""
      && var b := Get(fields, "birthDate");
         b == Undefined || b == Str("") || (b.Str? && IsDateShape(b.s))
  {
    FieldsCleanIff(UserInputShape, fields, isUrl);
    GithubIdAccepted(Get(fields, "githubId"), isUrl);
    BirthDateAccepted(Get(fields, "birthDate"), isUrl);
  }

  /** `z.string().nullable().default(null)`: a missing value becomes `null`,
      `null` and strings are kept, anything else is a type issue. */
  lemma NullableTextDefaults(v: Json, isUrl: string -> bool)
    ensures v == Undefined || v == Null ==> ParseValue(NullableText, v, isUrl) == Valid(Null)
    ensures v.Str? ==> ParseValue(NullableText, v, isUrl) == Valid(v)
    ensures !(v == Undefined || v == Null || v.Str?) ==> ParseValue(NullableText, v, isUrl).Aborted?
  {
  }

  /** `readme_content_html` defaults to the fixed notice when missing, keeps a
      supplied string unchanged, and rejects anything else (including `null`). */
  lemma ReadmeContentDefault(v: Json, isUrl: string -> bool)
    ensures v == Undefined ==> ParseValue(ReadmeContentSchema, v, isUrl) == Valid(Str(NoReadmeContent))
    ensures v.Str? ==> ParseValue(ReadmeContentSchema, v, isUrl) == Valid(v)
    ensures !(v == Undefined || v.Str?) ==> ParseValue(ReadmeContentSchema, v, isUrl).Aborted?
  {
  }

  lemma RepoKeysDistinct()
    ensures forall i, j | 0 <= i < |PortfolioRepoShape| && 0 <= j < |PortfolioRepoShape| && i != j ::
      PortfolioRepoShape[i].0 != PortfolioRepoShape[j].0
  {
    PortfolioRepoShapeAppends();
  }

  /** An accepted repository record has a non-empty name, and its
      description and language are strings or `null` (`null` when missing). */
  lemma AcceptedRepo(fields: map<string, Json>, isUrl: string -> bool)
    requires SafeParse(RepoShape, Obj(fields), isUrl).Success?
    ensures var data := SafeParse(RepoShape, Obj(fields), isUrl).data;
      && "name" in data && data["name"].Str? && data["name"].s != ""
      && "description" in data && (data["description"] == Null || data["description"].Str?)
      && "language" in data && (data["language"] == Null || data["language"].Str?)
      && (Get(fields, "description") == Undefined ==> data["description"] == Null)
      && (Get(fields, "language") == Undefined ==> data["language"] == Null)
  {
    FieldsOutput(RepoShape, fields, isUrl, 1);
    FieldsOutput(RepoShape, fields, isUrl, 2);
    FieldsOutput(RepoShape, fields, isUrl, 3);
    var name := ParseValue(RepoShape[1].1, Get(fields, "name"), isUrl);
    assert Get(fields, "name").Str?;
    assert StringProblems([MinLength(1, RepoNameMessage)], Get(fields, "name").s, isUrl) == [];
    NullableTextDefaults(Get(fields, "description"), isUrl);
    NullableTextDefaults(Get(fields, "language"), isUrl);
  }

  /** An accepted README-extended record always carries `readme_content_html`:
      the supplied string, or the fixed notice when it was missing. */
  lemma AcceptedPortfolioRepo(fields: map<string, Json>, isUrl: string -> bool)
    requires SafeParse(PortfolioRepoShape, Obj(fields), isUrl).Success?
    ensures var data := SafeParse(PortfolioRepoShape, Obj(fields), isUrl).data;
      && "readme_content_html" in data
      && (Get(fields, "readme_content_html") == Undefined ==> data["readme_content_html"] == Str(NoReadmeContent))
      && (Get(fields, "readme_content_html") != Undefined ==> data["readme_content_html"] == fields["readme_content_html"])
  {
    PortfolioRepoShapeAppends();
    RepoKeysDistinct();
    FieldsOutput(PortfolioRepoShape, fields, isUrl, 8);
    ReadmeContentDefault(Get(fields, "readme_content_html"), isUrl);
  }

  /** Whatever the extended schema accepts, the base repository schema accepts
      too, with the same values for every base field. */
  lemma PortfolioRepoIsRepo(input: Json, isUrl: string -> bool)
    requires SafeParse(PortfolioRepoShape, input, isUrl).Success?
    ensures SafeParse(RepoShape, input, isUrl).Success?
    ensures var b := SafeParse(RepoShape, input, isUrl).data;
      var w := SafeParse(PortfolioRepoShape, input, isUrl).data;
      forall k | k in b :: k in w && w[k] == b[k]
  {
    PortfolioRepoShapeAppends();
    RepoKeysDistinct();
    assert RepoShape == PortfolioRepoShape[..8];
    assert Keys(ReadmeExtension) == {"readme_content_html"} by {
      KeysCons(ReadmeExtension);
    }
    ExtendPreservesBase(RepoShape, ReadmeExtension, input, isUrl);
  }
}
