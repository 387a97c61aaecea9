/** The observable side of a run: the actions it performs, in order, and the command state it
    leaves behind; with the counting, filtering and bracketing vocabulary the properties use. */
module Trace {
  import opened HelmModel

  /** The three resources of a cluster session. The client carries the kubeconfig text it was
      built from (`None` for the ambient configuration); the tunnel carries its namespace. */
  datatype Resource = KubeClient(kubeconfig: Option<string>) | TillerTunnel(namespace: string) | Manager

  /** Position of a resource in the session header. */
  function Rank(r: Resource): nat
  {
    match r
    case KubeClient(_) => 0
    case TillerTunnel(_) => 1
    case Manager => 2
  }

  /** What an error log entry is about; the wording of the message is not modelled. */
  datatype LoggedError = ChartNotFound(path: string) | ChartLoadFailed | SessionFailed

  datatype Action =
    | LogError(error: LoggedError)
    | LogStatus(message: string)
    | LookupCredential(id: string)
    | Acquire(resource: Resource)
    | Release(resource: Resource)
    | List(listRequest: ListReleasesRequest)
    | Install(installRequest: InstallReleaseRequest, chart: Option<Chart>)
    | Update(updateRequest: UpdateReleaseRequest, chart: Option<Chart>)

  /** An exception that leaves `execute` instead of being turned into a command state. */
  datatype Escape = MissingCredential(id: string)

  /** The command state after a run; `Unset` when the run never sets it. */
  datatype CommandState = Unset | Success | HasError | Escaped(exception: Escape)

  datatype Run = Run(trace: seq<Action>, state: CommandState)

  datatype Kind = KLogError | KLogStatus | KLookup | KAcquire | KRelease | KList | KInstall | KUpdate

  function KindOf(a: Action): Kind
  {
    match a
    case LogError(_) => KLogError
    case LogStatus(_) => KLogStatus
    case LookupCredential(_) => KLookup
    case Acquire(_) => KAcquire
    case Release(_) => KRelease
    case List(_) => KList
    case Install(_, _) => KInstall
    case Update(_, _) => KUpdate
  }

  /** Number of actions of kind `k` in `t`. */
  function Count(t: seq<Action>, k: Kind): nat
  {
    if |t| == 0 then 0
    else (if KindOf(t[0]) == k then 1 else 0) + Count(t[1..], k)
  }

  predicate IsResourceEvent(a: Action)
  {
    a.Acquire? || a.Release?
  }

  /** The acquire and release actions of `t`, in order. */
  function ResourceEvents(t: seq<Action>): (ev: seq<Action>)
    ensures forall i :: 0 <= i < |ev| ==> IsResourceEvent(ev[i])
  {
    if |t| == 0 then []
    else (if IsResourceEvent(t[0]) then [t[0]] else []) + ResourceEvents(t[1..])
  }

  /** `t` with the chart payload of every install and update request replaced by null. */
  function EraseCharts(t: seq<Action>): (e: seq<Action>)
    ensures |e| == |t|
  {
    if |t| == 0 then []
    else
      var a := match t[0]
        case Install(r, _) => Install(r, None)
        case Update(r, _) => Update(r, None)
        case other => other;
      [a] + EraseCharts(t[1..])
  }

  /** The actions of a try-with-resources statement whose header acquired `held` (in order) and
      whose body produced `body`: every acquired resource is released, after everything acquired
      later than it. A header that fails part-way holds only what it acquired before failing. */
  function Nest(held: seq<Resource>, body: seq<Action>): (t: seq<Action>)
    ensures |t| == 2 * |held| + |body|
  {
    if |held| == 0 then body
    else [Acquire(held[0])] + Nest(held[1..], body) + [Release(held[0])]
  }

  /** A properly bracketed sequence of resource events: a run of acquisitions followed by the
      matching releases in the opposite order. */
  ghost predicate Bracketed(ev: seq<Action>)
  {
    && |ev| % 2 == 0
    && forall i :: 0 <= i < |ev| / 2 ==> ev[i].Acquire? && ev[|ev| - 1 - i] == Release(ev[i].resource)
  }

  lemma {:induction false} CountConcat(a: seq<Action>, b: seq<Action>, k: Kind)
    ensures Count(a + b, k) == Count(a, k) + Count(b, k)
  {
    if |a| == 0 {
      assert a + b == b;
    } else {
      assert (a + b)[1..] == a[1..] + b;
      CountConcat(a[1..], b, k);
    }
  }

  lemma {:induction false} ResourceEventsConcat(a: seq<Action>, b: seq<Action>)
    ensures ResourceEvents(a + b) == ResourceEvents(a) + ResourceEvents(b)
  {
    if |a| == 0 {
      assert a + b == b;
    } else {
      assert (a + b)[1..] == a[1..] + b;
      ResourceEventsConcat(a[1..], b);
    }
  }

  lemma {:induction false} EraseChartsConcat(a: seq<Action>, b: seq<Action>)
    ensures EraseCharts(a + b) == EraseCharts(a) + EraseCharts(b)
  {
    if |a| == 0 {
      assert a + b == b;
    } else {
      assert (a + b)[1..] == a[1..] + b;
      EraseChartsConcat(a[1..], b);
    }
  }

  lemma CountCons(a: Action, t: seq<Action>, k: Kind)
    ensures Count([a] + t, k) == (if KindOf(a) == k then 1 else 0) + Count(t, k)
  {
    assert ([a] + t)[1..] == t;
  }

  lemma ResourceEventsCons(a: Action, t: seq<Action>)
    ensures ResourceEvents([a] + t) == (if IsResourceEvent(a) then [a] else []) + ResourceEvents(t)
  {
    assert ([a] + t)[1..] == t;
  }

  lemma EraseChartsCons(a: Action, t: seq<Action>)
    ensures EraseCharts([a] + t) == EraseCharts([a]) + EraseCharts(t)
  {
    assert ([a] + t)[1..] == t;
    assert [a][1..] == [];
  }

  /** A bracket adds only resource events: every other kind is counted in the body alone. */
  lemma {:induction false} CountNest(held: seq<Resource>, body: seq<Action>, k: Kind)
    requires k != KAcquire && k != KRelease
    ensures Count(Nest(held, body), k) == Count(body, k)
  {
    if |held| > 0 {
      var inner := Nest(held[1..], body);
      CountConcat([Acquire(held[0])] + inner, [Release(held[0])], k);
      CountConcat([Acquire(held[0])], inner, k);
      CountNest(held[1..], body, k);
    }
  }

  lemma {:induction false} ResourceEventsNest(held: seq<Resource>, body: seq<Action>)
    ensures ResourceEvents(Nest(held, body)) == Nest(held, ResourceEvents(body))
  {
    if |held| > 0 {
      var inner := Nest(held[1..], body);
      ResourceEventsConcat([Acquire(held[0])] + inner, [Release(held[0])]);
      ResourceEventsConcat([Acquire(held[0])], inner);
      ResourceEventsNest(held[1..], body);
    }
  }

  lemma {:induction false} EraseChartsNest(held: seq<Resource>, body: seq<Action>)
    ensures EraseCharts(Nest(held, body)) == Nest(held, EraseCharts(body))
  {
    if |held| > 0 {
      var inner := Nest(held[1..], body);
      EraseChartsConcat([Acquire(held[0])] + inner, [Release(held[0])]);
      EraseChartsConcat([Acquire(held[0])], inner);
      EraseChartsNest(held[1..], body);
    }
  }

  /** Every action of a bracket is a resource event or an action of its body. */
  lemma {:induction false} NestMembers(held: seq<Resource>, body: seq<Action>, a: Action)
    requires a in Nest(held, body)
    ensures IsResourceEvent(a) || a in body
  {
    if |held| > 0 {
      var inner := Nest(held[1..], body);
      assert Nest(held, body) == [Acquire(held[0])] + inner + [Release(held[0])];
      if a in inner {
        NestMembers(held[1..], body, a);
      }
    }
  }

  /** A bracket opens with the acquisitions in order and closes with the releases in reverse. */
  lemma {:induction false} NestEnds(held: seq<Resource>, body: seq<Action>)
    ensures forall i :: 0 <= i < |held| ==>
      Nest(held, body)[i] == Acquire(held[i]) && Nest(held, body)[2 * |held| + |body| - 1 - i] == Release(held[i])
  {
    if |held| > 0 {
      var inner := Nest(held[1..], body);
      NestEnds(held[1..], body);
      var t := Nest(held, body);
      assert t == [Acquire(held[0])] + inner + [Release(held[0])];
      forall i | 0 < i < |held|
        ensures t[i] == Acquire(held[i]) && t[2 * |held| + |body| - 1 - i] == Release(held[i])
      {
        assert t[i] == inner[i - 1];
        assert t[2 * |held| + |body| - 1 - i] == inner[2 * |held[1..]| + |body| - 1 - (i - 1)];
      }
    }
  }

  /** Between the acquisitions and the releases, a bracket holds its body unchanged. */
  lemma {:induction false} NestMiddle(held: seq<Resource>, body: seq<Action>)
    ensures forall i :: 0 <= i < |body| ==> Nest(held, body)[|held| + i] == body[i]
  {
    if |held| > 0 {
      var inner := Nest(held[1..], body);
      NestMiddle(held[1..], body);
      var t := Nest(held, body);
      assert t == [Acquire(held[0])] + inner + [Release(held[0])];
      assert |held[1..]| == |held| - 1;
      forall i | 0 <= i < |body|
        ensures t[|held| + i] == body[i]
      {
        assert inner[|held| - 1 + i] == body[i];
        assert t[|held| + i] == inner[|held| - 1 + i];
      }
    }
  }

  /** An empty bracket is the acquisitions in order followed by the releases in reverse. */
  lemma NestShape(held: seq<Resource>)
    ensures forall i :: 0 <= i < |held| ==>
      Nest(held, [])[i] == Acquire(held[i]) && Nest(held, [])[2 * |held| - 1 - i] == Release(held[i])
  {
    NestEnds(held, []);
  }

  lemma NestBracketed(held: seq<Resource>)
    ensures Bracketed(Nest(held, []))
  {
    NestShape(held);
  }
}
