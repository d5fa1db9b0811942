/** The resources the client reads and writes, as the server returns them. */
module Domain {
  import opened Js

  /** A team member; `currentTasks` is computed by the server and only read here. */
  datatype Member = Member(id: string, name: string, role: string, capacity: int, currentTasks: int)

  datatype Team = Team(id: string, name: string, members: seq<Member>)

  datatype Project = Project(id: string, name: string, description: string, teamId: string)

  /** A task as listed by the server; `teamId` and `assignedMemberName` are denormalised copies. */
  datatype Task = Task(
    id: string,
    title: string,
    description: string,
    projectId: string,
    teamId: Option<string>,
    assignedMemberId: string,
    assignedMemberName: string,
    priority: string,
    status: string)

  function MemberKey(m: Member): string { m.id }
  function TeamKey(t: Team): string { t.id }
  function ProjectKey(p: Project): string { p.id }
}

/** What a page shows the user after an action, and what the server answered. */
module Notices {
  import opened Js

  /** A rejected request as the page's `catch` sees it: `error.data.message` and `error.message`. */
  datatype ErrorInfo = ErrorInfo(dataMessage: Option<string>, message: Option<string>)

  /** The server's answer to one request; the value of a successful `unwrap()` or the error it threw. */
  datatype Reply<+T> = Ok(value: T) | Failed(error: ErrorInfo)

  /** The last toast an action leaves on screen (loading toasts are replaced by it). */
  datatype Toast = Quiet | ErrorToast(text: string) | SuccessToast(text: string)

  /** `error?.data?.message || fallback`. */
  function ServerMessage(e: ErrorInfo, fallback: string): (r: string)
    ensures Truthy(e.dataMessage) ==> r == e.dataMessage.value
    ensures !Truthy(e.dataMessage) ==> r == fallback
  {
    FirstTruthy([e.dataMessage], fallback)
  }

  /** `error?.data?.message || error?.message || fallback`: an empty message counts as absent. */
  function ErrorMessage(e: ErrorInfo, fallback: string): (r: string)
    ensures Truthy(e.dataMessage) ==> r == e.dataMessage.value
    ensures !Truthy(e.dataMessage) && Truthy(e.message) ==> r == e.message.value
    ensures !Truthy(e.dataMessage) && !Truthy(e.message) ==> r == fallback
  {
    var c := [e.dataMessage, e.message];
    assert FirstTruthy(c[1..], fallback) == FirstTruthy([e.message], fallback);
    FirstTruthy(c, fallback)
  }
}

/** The shape of an HTTP request issued by an endpoint's `query` function. */
module Http {
  import opened Js

  datatype Method = GET | POST | PUT | PATCH | DELETE

  /** One `key=value` pair of a query string, before encoding. */
  datatype Param = Param(key: string, value: string)

  /**
   * Where a request goes: a literal path, or a path prefix followed by the
   * serialisation of an ordered parameter list (`URLSearchParams.toString()`).
   */
  datatype Target = Path(text: string) | PathWithParams(prefix: string, params: seq<Param>)

  datatype Request = Request(verb: Method, target: Target, body: Option<Json>)

  /** Path segments joined with "/". */
  function JoinPath(segs: seq<string>): string
    requires |segs| >= 1
  {
    if |segs| == 1 then segs[0] else segs[0] + "/" + JoinPath(segs[1..])
  }

  lemma JoinPathCons(a: string, rest: seq<string>)
    requires |rest| >= 1
    ensures JoinPath([a] + rest) == a + "/" + JoinPath(rest)
  {
    assert ([a] + rest)[1..] == rest;
  }

  /** A path cut at every "/", as a router reads it. */
  function SplitPath(s: string): (r: seq<string>)
    ensures |r| >= 1
    decreases |s|
  {
    if |s| == 0 then [""]
    else if s[0] == '/' then [""] + SplitPath(s[1..])
    else var rest := SplitPath(s[1..]); [[s[0]] + rest[0]] + rest[1..]
  }

  predicate NoSlash(s: string)
  {
    forall i :: 0 <= i < |s| ==> s[i] != '/'
  }

  lemma {:induction false} SplitSegmentThenRest(a: string, rest: string)
    requires NoSlash(a)
    ensures SplitPath(a) == [a]
    ensures SplitPath(a + "/" + rest) == [a] + SplitPath(rest)
    decreases |a|
  {
    if |a| == 0 {
      assert a + "/" + rest == "/" + rest;
      assert ("/" + rest)[1..] == rest;
    } else {
      assert (a + "/" + rest)[1..] == a[1..] + "/" + rest;
      SplitSegmentThenRest(a[1..], rest);
      assert [a[0]] + a[1..] == a;
    }
  }

  /** Splitting undoes joining when no segment contains "/". */
  lemma {:induction false} SplitJoin(segs: seq<string>)
    requires |segs| >= 1
    requires forall i :: 0 <= i < |segs| ==> NoSlash(segs[i])
    ensures SplitPath(JoinPath(segs)) == segs
    decreases |segs|
  {
    SplitSegmentThenRest(segs[0], "");
    if |segs| > 1 {
      SplitSegmentThenRest(segs[0], JoinPath(segs[1..]));
      SplitJoin(segs[1..]);
      assert [segs[0]] + segs[1..] == segs;
    }
  }
}

/**
 * The conditional-append idiom of the query builders, `if (v) params.append(k, v)`,
 * as a reference definition over an ordered list of candidate parameters.
 */
module QueryParams {
  import opened Js
  import opened Http

  /** A candidate parameter: its key and its possibly absent value. */
  datatype Candidate = Candidate(key: string, value: Option<string>)

  /** The candidates whose value is truthy, in their original order. */
  function TruthyParams(c: seq<Candidate>): (ps: seq<Param>)
    decreases |c|
  {
    if |c| == 0 then []
    else if Truthy(c[0].value) then [Param(c[0].key, c[0].value.value)] + TruthyParams(c[1..])
    else TruthyParams(c[1..])
  }

  /** Filtering distributes over concatenation, so the relative order of candidates is kept. */
  lemma {:induction false} TruthyParamsAppend(c1: seq<Candidate>, c2: seq<Candidate>)
    ensures TruthyParams(c1 + c2) == TruthyParams(c1) + TruthyParams(c2)
    decreases |c1|
  {
    if |c1| > 0 {
      assert (c1 + c2)[1..] == c1[1..] + c2;
      TruthyParamsAppend(c1[1..], c2);
    } else {
      assert c1 + c2 == c2;
    }
  }

  /** Every emitted parameter comes from a truthy candidate with the same key and value. */
  lemma {:induction false} TruthyParamsSound(c: seq<Candidate>, p: Param)
    requires p in TruthyParams(c)
    ensures p.value != ""
    ensures Candidate(p.key, Some(p.value)) in c
    decreases |c|
  {
    if |c| > 0 && !(Truthy(c[0].value) && p == Param(c[0].key, c[0].value.value)) {
      TruthyParamsSound(c[1..], p);
    }
  }

  /** Every truthy candidate is emitted. */
  lemma {:induction false} TruthyParamsComplete(c: seq<Candidate>, i: nat)
    requires i < |c| && Truthy(c[i].value)
    ensures Param(c[i].key, c[i].value.value) in TruthyParams(c)
    decreases |c|
  {
    if i > 0 {
      TruthyParamsComplete(c[1..], i - 1);
    }
  }
}
