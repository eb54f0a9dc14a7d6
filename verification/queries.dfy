/**
 The dynamic list queries of internal/store/postgres/store.go, as conditions over numbered
 placeholders, and what they select.
 */
module Queries {
  import opened Common

  datatype Job = Job(namespace: string, name: string, enabled: bool, tags: set<Tag>, schedule: nat)

  datatype ScheduleRow = ScheduleRow(id: nat, cron: string, timezone: string)

  datatype Joined = Joined(job: Job, schedule: ScheduleRow)

  datatype Execution = Execution(job: nat, namespace: string, status: string, trigger: string, created: int)

  datatype Arg = Text(text: string) | Flag(flag: bool) | Number(number: int)

  // ---------- ILIKE ----------

  function Fold(c: char): char {
    if 'A' <= c <= 'Z' then (c as int + 32) as char else c
  }

  /** Pattern matching with wildcards % and _ and the escape character, ignoring case. */
  predicate Like(p: string, s: string)
    decreases |p| + |s|
  {
    if p == [] then s == []
    else if p[0] == '%' then Like(p[1..], s) || (s != [] && Like(p, s[1..]))
    else if p[0] == '_' then s != [] && Like(p[1..], s[1..])
    else if p[0] == '\\' then |p| >= 2 && s != [] && Fold(s[0]) == Fold(p[1]) && Like(p[2..], s[1..])
    else s != [] && Fold(s[0]) == Fold(p[0]) && Like(p[1..], s[1..])
  }

  /** The same character, or the two cases of one letter. */
  predicate SameLetter(a: char, b: char) {
    || a == b
    || ('A' <= a <= 'Z' && b as int - a as int == 32)
    || ('A' <= b <= 'Z' && a as int - b as int == 32)
  }

  lemma FoldIgnoresCase(a: char, b: char)
    ensures Fold(a) == Fold(b) <==> SameLetter(a, b)
  {
  }

  predicate SameFold(a: string, b: string) {
    |a| == |b| && forall i :: 0 <= i < |a| ==> SameLetter(a[i], b[i])
  }

  /** What the filter is documented to mean: a substring, ignoring case. */
  predicate Contains(s: string, name: string) {
    exists i :: 0 <= i <= |s| && FoundAt(s, name, i)
  }

  predicate FoundAt(s: string, name: string, i: nat) {
    i + |name| <= |s| && SameFold(s[i..i + |name|], name)
  }

  predicate Plain(name: string) {
    forall i :: 0 <= i < |name| ==> name[i] != '%' && name[i] != '_' && name[i] != '\\'
  }

  function Pattern(name: string): string {
    "%" + name + "%"
  }

  lemma {:induction false} AnythingMatchesPercent(s: string)
    ensures Like("%", s)
  {
    assert Like([], []);
    assert "%"[1..] == [];
    if s != [] {
      AnythingMatchesPercent(s[1..]);
    }
  }

  lemma {:induction false} PlainPrefix(name: string, s: string)
    requires Plain(name)
    ensures Like(name + "%", s) <==> |name| <= |s| && SameFold(s[..|name|], name)
    decreases |name|
  {
    if name == [] {
      assert name + "%" == "%";
      AnythingMatchesPercent(s);
    } else {
      assert (name + "%")[1..] == name[1..] + "%";
      if s != [] {
        FoldIgnoresCase(s[0], name[0]);
        PlainPrefix(name[1..], s[1..]);
        if |name| <= |s| {
          var head, tail := s[..|name|], s[1..][..|name| - 1];
          assert head[1..] == tail;
          assert SameFold(head, name) <==> SameLetter(s[0], name[0]) && SameFold(tail, name[1..]) by {
            SameFoldCons(head, name);
          }
        }
      }
    }
  }

  lemma SameFoldCons(a: string, b: string)
    requires |a| == |b| >= 1
    ensures SameFold(a, b) <==> SameLetter(a[0], b[0]) && SameFold(a[1..], b[1..])
  {
    if SameFold(a[1..], b[1..]) && SameLetter(a[0], b[0]) {
      forall i | 0 <= i < |a| ensures SameLetter(a[i], b[i]) {
        if i > 0 { assert SameLetter(a[1..][i - 1], b[1..][i - 1]); }
      }
    }
  }

  lemma {:induction false} LeadingPercent(q: string, s: string)
    ensures Like("%" + q, s) <==> exists i :: 0 <= i <= |s| && Like(q, s[i..])
    decreases |s|
  {
    var p := "%" + q;
    assert p[1..] == q && s[0..] == s;
    if s == [] {
      assert forall i :: 0 <= i <= |s| ==> s[i..] == s;
    } else {
      LeadingPercent(q, s[1..]);
      if Like(p, s[1..]) {
        var i :| 0 <= i <= |s[1..]| && Like(q, s[1..][i..]);
        assert s[1..][i..] == s[i + 1..];
      }
      if exists i :: 1 <= i <= |s| && Like(q, s[i..]) {
        var i :| 1 <= i <= |s| && Like(q, s[i..]);
        assert s[1..][i - 1..] == s[i..];
      }
    }
  }

  lemma PlainNameIsSubstring(name: string, s: string)
    requires Plain(name)
    ensures Like(Pattern(name), s) <==> Contains(s, name)
  {
    assert Pattern(name) == "%" + (name + "%");
    LeadingPercent(name + "%", s);
    forall i | 0 <= i <= |s| ensures Like(name + "%", s[i..]) <==> FoundAt(s, name, i) {
      PlainPrefix(name, s[i..]);
      if i + |name| <= |s| {
        assert s[i..][..|name|] == s[i..i + |name|];
      }
    }
  }

  /** A string that the pattern of `name` matches, built by obeying its wildcards and escapes. */
  function Decoy(name: string): string {
    if name == [] then []
    else if name[0] == '%' then Decoy(name[1..])
    else if name[0] == '_' then ['a'] + Decoy(name[1..])
    else if name[0] == '\\' then (if |name| == 1 then ['%'] else [name[1]] + Decoy(name[2..]))
    else [name[0]] + Decoy(name[1..])
  }

  lemma {:induction false} DecoyMatches(name: string)
    ensures Like(name + "%", Decoy(name))
    decreases |name|
  {
    var p, d := name + "%", Decoy(name);
    if name == [] {
      assert p == "%";
      AnythingMatchesPercent(d);
    } else if name[0] == '\\' {
      if |name| == 1 {
        assert p[2..] == [] && d[1..] == [];
      } else {
        DecoyMatches(name[2..]);
        assert p[2..] == name[2..] + "%" && d[1..] == Decoy(name[2..]);
      }
    } else {
      DecoyMatches(name[1..]);
      assert p[1..] == name[1..] + "%";
      if name[0] != '%' { assert d[1..] == Decoy(name[1..]); }
    }
  }

  lemma {:induction false} DecoyIsNotTheName(name: string)
    ensures |Decoy(name)| <= |name|
    ensures SameFold(Decoy(name), name) ==> Plain(name)
    decreases |name|
  {
    var d := Decoy(name);
    if name != [] {
      if name[0] == '\\' {
        if |name| > 1 { DecoyIsNotTheName(name[2..]); }
      } else {
        DecoyIsNotTheName(name[1..]);
        if SameFold(d, name) && name[0] != '%' {
          SameFoldCons(d, name);
          assert d[1..] == Decoy(name[1..]);
        }
      }
    }
  }

  lemma DecoyEscapesTheName(name: string)
    requires !Plain(name)
    ensures Like(Pattern(name), Decoy(name)) && !Contains(Decoy(name), name)
  {
    hide Like, SameFold;
    var d := Decoy(name);
    DecoyMatches(name);
    DecoyIsNotTheName(name);
    LeadingPercent(name + "%", d);
    assert d[0..] == d && Pattern(name) == "%" + (name + "%");
    forall i | 0 <= i <= |d| ensures !FoundAt(d, name, i) {
      assert i + |name| <= |d| ==> d[i..i + |name|] == d;
    }
  }

  ghost predicate IsSubstringFilter(name: string) {
    forall s :: Like(Pattern(name), s) <==> Contains(s, name)
  }

  /** The name filter means "contains" for every job name exactly when it has no %, _ or backslash. */
  lemma NameFilterIsExact(name: string)
    ensures IsSubstringFilter(name) <==> Plain(name)
  {
    hide Like, Contains, Plain;
    if Plain(name) {
      forall s ensures Like(Pattern(name), s) <==> Contains(s, name) {
        PlainNameIsSubstring(name, s);
      }
    } else {
      DecoyEscapesTheName(name);
    }
  }

  // ---------- conditions over placeholders ----------

  /** A condition on a row; `p` and `q` are placeholder numbers, the functions are columns. */
  datatype Cond<!Row> =
    | Equals(p: nat, column: Row -> Arg)
    | AtLeast(p: nat, time: Row -> int)
    | AtMost(p: nat, time: Row -> int)
    | ILike(p: nat, text: Row -> string)
    | HasTag(p: nat, q: nat, tags: Row -> set<Tag>)
  {
    function Placeholders(): seq<nat> {
      if HasTag? then [p, q] else [p]
    }

    predicate Holds(args: seq<Arg>, row: Row) {
      1 <= p <= |args| && var arg := args[p - 1];
      match this
      case Equals(_, column) => arg == column(row)
      case AtLeast(_, time) => arg.Number? && time(row) >= arg.number
      case AtMost(_, time) => arg.Number? && time(row) <= arg.number
      case ILike(_, text) => arg.Text? && Like(arg.text, text(row))
      case HasTag(_, q, tags) =>
        arg.Text? && 1 <= q <= |args| && args[q - 1].Text? && Tag(arg.text, args[q - 1].text) in tags(row)
    }
  }

  predicate AllHold<Row>(conds: seq<Cond<Row>>, args: seq<Arg>, row: Row) {
    forall i :: 0 <= i < |conds| ==> conds[i].Holds(args, row)
  }

  /** The placeholders of the conditions, in the order in which they are written. */
  function Used<Row>(conds: seq<Cond<Row>>): seq<nat> {
    if conds == [] then [] else Used(conds[..|conds| - 1]) + conds[|conds| - 1].Placeholders()
  }

  function UpTo(n: nat): seq<nat> {
    seq(n, i requires 0 <= i < n => i + 1)
  }

  /** `limitAt` and `offsetAt` are the placeholders of LIMIT and OFFSET. */
  datatype Query<!Row> = Query(where: seq<Cond<Row>>, limitAt: nat, offsetAt: nat, args: seq<Arg>) {
    predicate Selects(row: Row) {
      AllHold(where, args, row)
    }

    /** Placeholder i stands for argument i, is written once, and in order; the page is the clamped one. */
    predicate Bound(limit: int, offset: int) {
      && Used(where) + [limitAt, offsetAt] == UpTo(|args|)
      && 1 <= limitAt <= |args| && 1 <= offsetAt <= |args|
      && args[limitAt - 1] == Number(if limit <= 0 then 100 else if limit <= 1000 then limit else 1000)
      && args[offsetAt - 1] == Number(if offset < 0 then 0 else offset)
    }
  }

  function ClampLimit(limit: int): int {
    if limit <= 0 then 100 else if limit > 1000 then 1000 else limit
  }

  lemma {:induction false} PlaceholdersAreUsed<Row>(conds: seq<Cond<Row>>, i: nat)
    requires i < |conds|
    ensures forall p :: p in conds[i].Placeholders() ==> p in Used(conds)
  {
    if i < |conds| - 1 {
      PlaceholdersAreUsed(conds[..|conds| - 1], i);
    }
  }

  /** Arguments appended later do not change what a condition means. */
  lemma SameArguments<Row(!new)>(conds: seq<Cond<Row>>, args: seq<Arg>, extra: seq<Arg>)
    requires Used(conds) == UpTo(|args|)
    ensures forall row :: AllHold(conds, args + extra, row) <==> AllHold(conds, args, row)
  {
    hide Like;
    forall i, row | 0 <= i < |conds| ensures conds[i].Holds(args + extra, row) <==> conds[i].Holds(args, row) {
      PlaceholdersAreUsed(conds, i);
      assert conds[i].p in conds[i].Placeholders();
      assert conds[i].HasTag? ==> conds[i].Placeholders()[1] == conds[i].q && conds[i].q in conds[i].Placeholders();
      assert forall p :: p in UpTo(|args|) ==> 1 <= p <= |args|;
      assert 1 <= conds[i].p <= |args| && (conds[i].HasTag? ==> 1 <= conds[i].q <= |args|);
    }
  }

  /** A further condition over further arguments narrows the selection and disturbs nothing else. */
  lemma AddCondition<Row(!new)>(conds: seq<Cond<Row>>, args: seq<Arg>, c: Cond<Row>, extra: seq<Arg>)
    requires Used(conds) == UpTo(|args|)
    requires c.p == |args| + 1 && |extra| == (if c.HasTag? then 2 else 1) && (c.HasTag? ==> c.q == |args| + 2)
    ensures Used(conds + [c]) == UpTo(|args + extra|)
    ensures forall row :: AllHold(conds + [c], args + extra, row) <==>
            AllHold(conds, args, row) && c.Holds(args + extra, row)
  {
    hide Cond.Holds;
    assert (conds + [c])[..|conds|] == conds;
    SameArguments(conds, args, extra);
    forall row
      ensures AllHold(conds + [c], args + extra, row) <==>
              AllHold(conds, args + extra, row) && c.Holds(args + extra, row)
    {
      if AllHold(conds + [c], args + extra, row) {
        assert (conds + [c])[|conds|] == c;
        assert forall i :: 0 <= i < |conds| ==> (conds + [c])[i] == conds[i];
      }
    }
  }

  lemma Paged<Row(!new)>(conds: seq<Cond<Row>>, args: seq<Arg>, limit: int, offset: int)
    requires Used(conds) == UpTo(|args|)
    ensures var n := |args|;
            var page := [Number(ClampLimit(limit)), Number(Max(offset, 0))];
            var query := Query(conds, n + 1, n + 2, args + page);
            query.Bound(limit, offset) && forall row :: query.Selects(row) <==> AllHold(conds, args, row)
  {
    SameArguments(conds, args, [Number(ClampLimit(limit)), Number(Max(offset, 0))]);
  }

  // ---------- jobs ----------

  datatype JobFilter = JobFilter(
    namespace: string,
    tags: seq<Tag>,
    enabled: Option<bool>,
    name: string,
    limit: int,
    offset: int)

  /** What the filter describes, taking its first n tags into account. */
  predicate Describes(f: JobFilter, job: Job, n: nat)
    requires n <= |f.tags|
  {
    && job.namespace == f.namespace
    && (f.enabled.Some? ==> job.enabled == f.enabled.value)
    && (f.name != "" ==> Like(Pattern(f.name), job.name))
    && (forall i :: 0 <= i < n ==> f.tags[i] in job.tags)
  }

  /** The builder that both job lists spell out; `job` gives the columns of alias j in a row. */
  method BuildConditions<Row(!new)>(f: JobFilter, job: Row -> Job) returns (query: Query<Row>)
    ensures query.Bound(f.limit, f.offset)
    ensures forall r :: query.Selects(r) <==> Describes(f, job(r), |f.tags|)
  {
    hide Like, Used, UpTo, AllHold, Query.Bound;
    var conds: seq<Cond<Row>>, args: seq<Arg>, argIdx := [], [], 1;
    NoConditions<Row>();
    var inNamespace := Equals(argIdx, r => Text(job(r).namespace));
    AddCondition(conds, args, inNamespace, [Text(f.namespace)]);
    conds, args, argIdx := conds + [inNamespace], args + [Text(f.namespace)], argIdx + 1;
    if f.enabled.Some? {
      var isEnabled := Equals(argIdx, r => Flag(job(r).enabled));
      AddCondition(conds, args, isEnabled, [Flag(f.enabled.value)]);
      conds, args, argIdx := conds + [isEnabled], args + [Flag(f.enabled.value)], argIdx + 1;
    }
    if f.name != "" {
      var isNamed := ILike(argIdx, r => job(r).name);
      AddCondition(conds, args, isNamed, [Text(Pattern(f.name))]);
      conds, args, argIdx := conds + [isNamed], args + [Text(Pattern(f.name))], argIdx + 1;
    }
    for i := 0 to |f.tags|
      invariant argIdx == |args| + 1 && Used(conds) == UpTo(|args|)
      invariant forall r :: AllHold(conds, args, r) <==> Describes(f, job(r), i)
    {
      var both := [Text(f.tags[i].key), Text(f.tags[i].value)];
      var isTagged := HasTag(argIdx, argIdx + 1, r => job(r).tags);
      AddCondition(conds, args, isTagged, both);
      conds, args, argIdx := conds + [isTagged], args + both, argIdx + 2;
    }
    Paged(conds, args, f.limit, f.offset);
    query := Query(conds, argIdx, argIdx + 1, args + [Number(ClampLimit(f.limit)), Number(Max(f.offset, 0))]);
  }

  /** ListJobs: FROM jobs j. */
  method BuildJobQuery(f: JobFilter) returns (query: Query<Job>)
    ensures query.Bound(f.limit, f.offset)
    ensures forall job :: query.Selects(job) <==> Describes(f, job, |f.tags|)
  {
    query := BuildConditions(f, (job: Job) => job);
  }

  /** ListJobsWithSchedules: FROM jobs j JOIN schedules s ON j.schedule_id = s.id. */
  method BuildJoinedQuery(f: JobFilter) returns (query: Query<Joined>)
    ensures query.Bound(f.limit, f.offset)
    ensures forall row :: query.Selects(row) <==> Describes(f, row.job, |f.tags|)
  {
    query := BuildConditions(f, (row: Joined) => row.job);
  }

  lemma NoConditions<Row(!new)>()
    ensures Used<Row>([]) == UpTo(0) && forall args, row: Row :: AllHold([], args, row)
  {
  }

  function Join(jobs: set<Job>, schedules: set<ScheduleRow>): set<Joined> {
    set job, schedule | job in jobs && schedule in schedules && job.schedule == schedule.id :: Joined(job, schedule)
  }

  /**
   With the schedules' primary key and the foreign key on every job, the join neither loses nor
   repeats a job: both lists select the jobs that the filter describes, each once.
   */
  lemma BothListsSelectTheSameJobs(f: JobFilter, plain: Query<Job>, joined: Query<Joined>, jobs: set<Job>,
                                   schedules: set<ScheduleRow>)
    requires forall job :: plain.Selects(job) <==> Describes(f, job, |f.tags|)
    requires forall row :: joined.Selects(row) <==> Describes(f, row.job, |f.tags|)
    requires forall job :: job in jobs ==> exists s :: s in schedules && s.id == job.schedule
    requires forall s, s' :: s in schedules && s' in schedules && s.id == s'.id ==> s == s'
    ensures (set row | row in Join(jobs, schedules) && joined.Selects(row) :: row.job) ==
            (set job | job in jobs && plain.Selects(job))
    ensures forall r, r' :: r in Join(jobs, schedules) && r' in Join(jobs, schedules) && r.job == r'.job ==> r == r'
  {
    hide Query.Selects, Describes;
    var rows := Join(jobs, schedules);
    forall job | job in jobs && plain.Selects(job)
      ensures job in set row | row in rows && joined.Selects(row) :: row.job
    {
      var s :| s in schedules && s.id == job.schedule;
      assert Joined(job, s) in rows && joined.Selects(Joined(job, s));
    }
  }

  // ---------- executions ----------

  /** Job 0 and the empty namespace mean "any". */
  datatype ExecutionFilter = ExecutionFilter(
    job: nat,
    namespace: string,
    status: Option<string>,
    trigger: Option<string>,
    since: Option<int>,
    until: Option<int>,
    limit: int,
    offset: int)
  {
    predicate Labelled(e: Execution) {
      && (job != 0 ==> e.job == job)
      && (namespace != "" ==> e.namespace == namespace)
      && (status.Some? ==> e.status == status.value)
      && (trigger.Some? ==> e.trigger == trigger.value)
    }

    predicate Describes(e: Execution) {
      && Labelled(e)
      && (since.Some? ==> since.value <= e.created)
      && (until.Some? ==> e.created <= until.value)
    }
  }

  /** One optional equality of ListExecutions: appended, with its argument, when it is given. */
  method WhereEquals(conds: seq<Cond<Execution>>, args: seq<Arg>, argIdx: nat, given: bool, column: Execution -> Arg,
                     arg: Arg)
    returns (conds': seq<Cond<Execution>>, args': seq<Arg>, argIdx': nat)
    requires argIdx == |args| + 1 && Used(conds) == UpTo(|args|)
    ensures argIdx' == |args'| + 1 && Used(conds') == UpTo(|args'|)
    ensures forall e :: AllHold(conds', args', e) <==> AllHold(conds, args, e) && (given ==> column(e) == arg)
  {
    hide Used, UpTo, AllHold;
    conds', args', argIdx' := conds, args, argIdx;
    if given {
      AddCondition(conds, args, Equals(argIdx, column), [arg]);
      conds', args', argIdx' := conds + [Equals(argIdx, column)], args + [arg], argIdx + 1;
    }
  }

  method BuildLabels(f: ExecutionFilter) returns (conds: seq<Cond<Execution>>, args: seq<Arg>, argIdx: nat)
    ensures argIdx == |args| + 1 && Used(conds) == UpTo(|args|)
    ensures forall e :: AllHold(conds, args, e) <==> f.Labelled(e)
  {
    hide Used, UpTo, AllHold;
    conds, args, argIdx := [], [], 1;
    NoConditions<Execution>();
    conds, args, argIdx := WhereEquals(conds, args, argIdx, f.job != 0, (e: Execution) => Number(e.job), Number(f.job));
    conds, args, argIdx :=
      WhereEquals(conds, args, argIdx, f.namespace != "", (e: Execution) => Text(e.namespace), Text(f.namespace));
    if f.status.Some? {
      conds, args, argIdx :=
        WhereEquals(conds, args, argIdx, true, (e: Execution) => Text(e.status), Text(f.status.value));
    }
    if f.trigger.Some? {
      conds, args, argIdx :=
        WhereEquals(conds, args, argIdx, true, (e: Execution) => Text(e.trigger), Text(f.trigger.value));
    }
  }

  /** The query of ListExecutions.  With no condition the WHERE clause is TRUE and selects every row. */
  method BuildExecutionQuery(f: ExecutionFilter) returns (query: Query<Execution>)
    ensures query.Bound(f.limit, f.offset)
    ensures forall e :: query.Selects(e) <==> f.Describes(e)
  {
    hide Like, Used, UpTo, AllHold, Query.Bound, ExecutionFilter.Labelled;
    var conds, args, argIdx := BuildLabels(f);
    if f.since.Some? {
      AddCondition(conds, args, AtLeast(argIdx, (e: Execution) => e.created), [Number(f.since.value)]);
      conds, args := conds + [AtLeast(argIdx, (e: Execution) => e.created)], args + [Number(f.since.value)];
      argIdx := argIdx + 1;
    }
    if f.until.Some? {
      AddCondition(conds, args, AtMost(argIdx, (e: Execution) => e.created), [Number(f.until.value)]);
      conds, args := conds + [AtMost(argIdx, (e: Execution) => e.created)], args + [Number(f.until.value)];
      argIdx := argIdx + 1;
    }
    Paged(conds, args, f.limit, f.offset);
    query := Query(conds, argIdx, argIdx + 1, args + [Number(ClampLimit(f.limit)), Number(Max(f.offset, 0))]);
  }
}
