/** The pieces of the convergence experiments (src/TestConvergence.java) that
    compute something: the mimic policy, which replays the expert's first
    recorded action in every state the expert visited, the text of the results
    file, and the in-place scaling of a distance history. */
module Convergence {
  import opened Wrappers
  import opened JavaStrings

  /** An expert episode: its states and the actions taken from them. BURLAP
      keeps one action fewer than states when an episode ends normally. */
  datatype Episode<S, A> = Episode(states: seq<S>, actions: seq<A>)

  /** The constructor visits steps 0 .. numTimeSteps - 2 of every episode. */
  function Steps<S, A>(e: Episode<S, A>): nat {
    if |e.states| > 0 then |e.states| - 1 else 0
  }

  /** Step t of episode e can put its state in the table: the constructor
      visits it and getAction(t) does not throw. */
  predicate Recordable<S, A>(eas: seq<Episode<S, A>>, e: int, t: int) {
    0 <= e < |eas| && 0 <= t < Steps(eas[e]) && t < |eas[e].actions|
  }

  /** The (state, action) pairs of episode e at its steps below upto that can
      be put, in step order. */
  function Candidates<S, A>(e: Episode<S, A>, upto: nat): seq<(S, A)>
    requires upto <= Steps(e)
  {
    if upto == 0 then []
    else if upto - 1 < |e.actions| then Candidates(e, upto - 1) + [(e.states[upto - 1], e.actions[upto - 1])]
    else Candidates(e, upto - 1)
  }

  /** The candidates of all episodes, in episode order then step order. */
  function AllCandidates<S, A>(eas: seq<Episode<S, A>>): seq<(S, A)> {
    if |eas| == 0 then []
    else AllCandidates(eas[..|eas| - 1]) + Candidates(eas[|eas| - 1], Steps(eas[|eas| - 1]))
  }

  /** The puts guarded by containsKey: a pair is put only when its state is not
      yet a key. */
  function FirstWins<S, A>(ps: seq<(S, A)>): map<S, A> {
    if |ps| == 0 then map[]
    else
      var m := FirstWins(ps[..|ps| - 1]);
      var p := ps[|ps| - 1];
      if p.0 in m then m else m[p.0 := p.1]
  }

  /** The table the constructor builds from the expert episodes. */
  function Table<S, A>(eas: seq<Episode<S, A>>): map<S, A> {
    FirstWins(AllCandidates(eas))
  }

  /** The keys are exactly the states of the pairs. */
  lemma {:induction false} FirstWinsKeys<S, A>(ps: seq<(S, A)>, k: S)
    ensures k in FirstWins(ps) <==> exists i :: 0 <= i < |ps| && ps[i].0 == k
  {
    if |ps| > 0 {
      var n := |ps| - 1;
      FirstWinsKeys(ps[..n], k);
      if exists i :: 0 <= i < n && ps[..n][i].0 == k {
        var i :| 0 <= i < n && ps[..n][i].0 == k;
        assert ps[i].0 == k;
      }
      if exists i :: 0 <= i < |ps| && ps[i].0 == k {
        var i :| 0 <= i < |ps| && ps[i].0 == k;
        if i < n {
          assert ps[..n][i].0 == k;
        }
      }
    }
  }

  /** A state is mapped to the action of its first pair. */
  lemma {:induction false} FirstWinsValue<S, A>(ps: seq<(S, A)>, i: nat)
    requires i < |ps|
    requires forall j :: 0 <= j < i ==> ps[j].0 != ps[i].0
    ensures ps[i].0 in FirstWins(ps) && FirstWins(ps)[ps[i].0] == ps[i].1
  {
    var n := |ps| - 1;
    var k := ps[i].0;
    if i < n {
      FirstWinsValue(ps[..n], i);
    } else {
      FirstWinsKeys(ps[..n], k);
      assert forall j :: 0 <= j < n ==> ps[..n][j].0 != k;
    }
  }

  /** The candidates of an episode are the recordable steps' pairs, in order:
      each candidate comes from such a step, and each such step gives one. */
  lemma {:induction false} CandidatesOf<S, A>(e: Episode<S, A>, upto: nat, p: (S, A))
    requires upto <= Steps(e)
    ensures p in Candidates(e, upto) <==>
      exists t :: 0 <= t < upto && t < |e.actions| && p == (e.states[t], e.actions[t])
  {
    if upto > 0 {
      CandidatesOf(e, upto - 1, p);
    }
  }

  lemma {:induction false} AllCandidatesOf<S, A>(eas: seq<Episode<S, A>>, p: (S, A))
    ensures p in AllCandidates(eas) <==>
      exists e, t :: Recordable(eas, e, t) && p == (eas[e].states[t], eas[e].actions[t])
  {
    if |eas| > 0 {
      var n := |eas| - 1;
      var init := eas[..n];
      AllCandidatesOf(init, p);
      CandidatesOf(eas[n], Steps(eas[n]), p);
      if exists e, t :: Recordable(init, e, t) && p == (init[e].states[t], init[e].actions[t]) {
        var e, t :| Recordable(init, e, t) && p == (init[e].states[t], init[e].actions[t]);
        assert Recordable(eas, e, t) && p == (eas[e].states[t], eas[e].actions[t]);
      }
      if exists t :: 0 <= t < Steps(eas[n]) && t < |eas[n].actions| && p == (eas[n].states[t], eas[n].actions[t]) {
        var t :| 0 <= t < Steps(eas[n]) && t < |eas[n].actions| && p == (eas[n].states[t], eas[n].actions[t]);
        assert Recordable(eas, n, t);
      }
      if exists e, t :: Recordable(eas, e, t) && p == (eas[e].states[t], eas[e].actions[t]) {
        var e, t :| Recordable(eas, e, t) && p == (eas[e].states[t], eas[e].actions[t]);
        if e < n {
          assert Recordable(init, e, t) && p == (init[e].states[t], init[e].actions[t]);
        }
      }
    }
  }

  /** The table's keys are exactly the states at recordable steps: every state
      at a step before an episode's last one (with its action present), and a
      last-step state only when it also occurs at such an earlier step. */
  lemma TableKeys<S, A>(eas: seq<Episode<S, A>>, s: S)
    ensures s in Table(eas) <==> exists e, t :: Recordable(eas, e, t) && eas[e].states[t] == s
  {
    var ps := AllCandidates(eas);
    FirstWinsKeys(ps, s);
    if s in Table(eas) {
      var i :| 0 <= i < |ps| && ps[i].0 == s;
      AllCandidatesOf(eas, ps[i]);
      var e, t :| Recordable(eas, e, t) && ps[i] == (eas[e].states[t], eas[e].actions[t]);
      assert eas[e].states[t] == s;
    }
    if exists e, t :: Recordable(eas, e, t) && eas[e].states[t] == s {
      var e, t :| Recordable(eas, e, t) && eas[e].states[t] == s;
      var p := (eas[e].states[t], eas[e].actions[t]);
      AllCandidatesOf(eas, p);
      var i :| 0 <= i < |ps| && ps[i] == p;
      assert ps[i].0 == s;
    }
  }

  /** A state is mapped to the action of the first candidate holding it. */
  lemma TableValue<S, A>(eas: seq<Episode<S, A>>, i: nat)
    requires i < |AllCandidates(eas)|
    requires forall j :: 0 <= j < i ==> AllCandidates(eas)[j].0 != AllCandidates(eas)[i].0
    ensures AllCandidates(eas)[i].0 in Table(eas)
    ensures Table(eas)[AllCandidates(eas)[i].0] == AllCandidates(eas)[i].1
  {
    FirstWinsValue(AllCandidates(eas), i);
  }

  /** A policy that replays the expert: the state-to-action table filled from
      the expert's episodes. States are compared by their hash tuples, which
      here are the states themselves. */
  class MimicTheExpertPolicy<S(==), A> {
    var stateActionMapping: map<S, A>

    /** The constructor: for each episode, for each step but the last, a state
        not yet in the table is put with the action of that step; a missing
        action (getAction throwing) is caught and nothing is put. */
    constructor(eas: seq<Episode<S, A>>)
      ensures stateActionMapping == Table(eas)
    {
      var m: map<S, A> := map[];
      var i := 0;
      while i < |eas|
        invariant 0 <= i <= |eas|
        invariant m == FirstWins(AllCandidates(eas[..i]))
      {
        assert eas[..i + 1][..i] == eas[..i];
        m := RecordEpisode(m, AllCandidates(eas[..i]), eas[i]);
        i := i + 1;
      }
      assert eas[..i] == eas;
      stateActionMapping := m;
    }

    /** getAction: the recorded action for a recorded state; otherwise one of
        the state's grounded actions, at the position Random.nextInt drew
        (pick); with no grounded action nextInt(0) throws. */
    function GetAction(s: S, grounded: seq<A>, pick: nat): (r: Result<A, JavaError>)
      reads this
      requires |grounded| > 0 ==> pick < |grounded|
      ensures s in stateActionMapping ==> r == Success(stateActionMapping[s])
      ensures s !in stateActionMapping && |grounded| == 0 ==> r == Failure(IllegalArgument)
      ensures s !in stateActionMapping && |grounded| > 0 ==> r.Success? && r.value in grounded
    {
      if s in stateActionMapping then Success(stateActionMapping[s])
      else if |grounded| == 0 then Failure(IllegalArgument)
      else Success(grounded[pick])
    }

    /** getActionDistributionForState: always null. */
    function GetActionDistributionForState<D>(s: S): (r: Option<D>)
      ensures r.None?
    {
      None
    }

    /** isStochastic: the mimic policy is deterministic. */
    function IsStochastic(): (b: bool)
      ensures !b
    {
      false
    }
  }

  /** The inner loop of the constructor over one episode: the table so far
      is the one for the earlier candidates, and it becomes the one for those
      followed by this episode's candidates. */
  method RecordEpisode<S, A>(m: map<S, A>, before: seq<(S, A)>, e: Episode<S, A>) returns (m': map<S, A>)
    requires m == FirstWins(before)
    ensures m' == FirstWins(before + Candidates(e, Steps(e)))
  {
    m' := m;
    var step := 0;
    assert before + Candidates(e, 0) == before;
    while step < Steps(e)
      invariant 0 <= step <= Steps(e)
      invariant m' == FirstWins(before + Candidates(e, step))
    {
      var s := e.states[step];
      if s !in m' {
        if step < |e.actions| {
          var ps := before + Candidates(e, step) + [(s, e.actions[step])];
          assert ps[..|ps| - 1] == before + Candidates(e, step);
          assert before + Candidates(e, step + 1) == ps;
          m' := m'[s := e.actions[step]];
        } else {
          assert Candidates(e, step + 1) == Candidates(e, step);
        }
      } else if step < |e.actions| {
        var ps := before + Candidates(e, step) + [(s, e.actions[step])];
        assert ps[..|ps| - 1] == before + Candidates(e, step);
        assert before + Candidates(e, step + 1) == ps;
      } else {
        assert Candidates(e, step + 1) == Candidates(e, step);
      }
      step := step + 1;
    }
  }

  /** Replaying: in a state the expert visited at a recordable step, the mimic
      policy returns the expert's action at the first such visit. */
  lemma MimicReplaysExpert<S, A>(p: MimicTheExpertPolicy<S, A>, eas: seq<Episode<S, A>>, i: nat,
                                grounded: seq<A>, pick: nat)
    requires p.stateActionMapping == Table(eas)
    requires i < |AllCandidates(eas)|
    requires forall j :: 0 <= j < i ==> AllCandidates(eas)[j].0 != AllCandidates(eas)[i].0
    requires |grounded| > 0 ==> pick < |grounded|
    ensures p.GetAction(AllCandidates(eas)[i].0, grounded, pick) == Success(AllCandidates(eas)[i].1)
  {
    TableValue(eas, i);
  }

  /** The text of one row: every value printed by Double.toString and followed
      by ", ". */
  function RowBody(row: seq<real>, format: real -> string): string {
    if |row| == 0 then ""
    else RowBody(row[..|row| - 1], format) + format(row[|row| - 1]) + ", "
  }

  /** The whole results text: each row's body ended by "\n". */
  function ResultsText(rows: seq<seq<real>>, format: real -> string): string {
    if |rows| == 0 then ""
    else ResultsText(rows[..|rows| - 1], format) + RowBody(rows[|rows| - 1], format) + "\n"
  }

  /** writeResultsToFile's StringBuilder; Double.toString is the format
      parameter. The file itself is not part of this model. */
  method WriteResultsText(rows: seq<seq<real>>, format: real -> string) returns (text: string)
    ensures text == ResultsText(rows, format)
  {
    text := "";
    var i := 0;
    while i < |rows|
      invariant 0 <= i <= |rows|
      invariant text == ResultsText(rows[..i], format)
    {
      var row := rows[i];
      var line := "";
      var j := 0;
      while j < |row|
        invariant 0 <= j <= |row|
        invariant line == RowBody(row[..j], format)
      {
        assert row[..j + 1][..j] == row[..j];
        line := line + format(row[j]) + ", ";
        j := j + 1;
      }
      assert row[..j] == row;
      assert rows[..i + 1][..i] == rows[..i];
      text := text + line + "\n";
      i := i + 1;
    }
    assert rows[..i] == rows;
  }

  /** The row bodies, one per row. */
  function Bodies(rows: seq<seq<real>>, format: real -> string): (r: seq<string>)
    ensures |r| == |rows| && forall i :: 0 <= i < |rows| ==> r[i] == RowBody(rows[i], format)
  {
    seq(|rows|, i requires 0 <= i < |rows| => RowBody(rows[i], format))
  }

  /** The text is the row bodies joined by line breaks, with one more line
      break at the end. */
  lemma {:induction false} ResultsTextLines(rows: seq<seq<real>>, format: real -> string)
    ensures ResultsText(rows, format) == if |rows| == 0 then "" else Join(Bodies(rows, format), "\n") + "\n"
  {
    if |rows| > 0 {
      var n := |rows| - 1;
      ResultsTextLines(rows[..n], format);
      var b := Bodies(rows, format);
      var bn := Bodies(rows[..n], format);
      assert bn == b[..n];
    }
  }

  /** A row body holds no line break when no printed value does. */
  lemma {:induction false} RowBodyFree(row: seq<real>, format: real -> string)
    requires forall i :: 0 <= i < |row| ==> FreeOf(format(row[i]), '\n')
    ensures FreeOf(RowBody(row, format), '\n')
  {
    if |row| > 0 {
      var n := |row| - 1;
      RowBodyFree(row[..n], format);
      assert FreeOf(", ", '\n') by {
        assert ", "[1..] == " ";
        assert " "[1..] == "";
      }
      FreeOfConcat(RowBody(row[..n], format), format(row[n]), '\n');
      FreeOfConcat(RowBody(row[..n], format) + format(row[n]), ", ", '\n');
    }
  }

  /** Read back line by line, the text gives one line per row, holding that
      row's values each followed by ", ", and an empty remainder after the last
      line break. */
  lemma ResultsTextPieces(rows: seq<seq<real>>, format: real -> string)
    requires forall i, j :: 0 <= i < |rows| && 0 <= j < |rows[i]| ==> FreeOf(format(rows[i][j]), '\n')
    ensures Pieces(ResultsText(rows, format), "\n") == Bodies(rows, format) + [""]
  {
    var segs := Bodies(rows, format) + [""];
    forall k | 0 <= k < |segs|
      ensures FreeOf(segs[k], "\n"[0])
    {
      if k < |rows| {
        RowBodyFree(rows[k], format);
      }
    }
    ResultsTextLines(rows, format);
    JoinTerminated(Bodies(rows, format), "\n");
    PiecesOfJoin(segs, "\n");
  }

  /** The first n entries multiplied by (1 - gamma), the others unchanged. */
  function Scaled(h: seq<real>, n: int, gamma: real): (r: seq<real>)
    ensures |r| == |h|
  {
    seq(|h|, i requires 0 <= i < |h| => if i < n then h[i] * (1.0 - gamma) else h[i])
  }

  /** The loop of euclideanDistVsIterations over tHistory: entries 0 ..
      maxIterations - 1 are scaled in place by (1 - GAMMA). A history shorter
      than maxIterations is scaled entirely and then the store past its end
      throws. getTHistory returns null when no learning run set the history
      (a projection run that converged before its last iteration leaves it
      unset), and then the first store dereferences null. */
  method ScaleHistory(h: array?<real>, maxIterations: int, gamma: real) returns (r: Option<JavaError>)
    modifies h
    ensures h == null ==> r == if maxIterations > 0 then Some(NullPointer) else None
    ensures h != null && maxIterations > h.Length ==> r == Some(IndexOutOfBounds)
    ensures h != null && maxIterations <= h.Length ==> r == None
    ensures h != null ==> h[..] == Scaled(old(h[..]), maxIterations, gamma)
  {
    if h == null {
      if maxIterations > 0 {
        return Some(NullPointer);
      }
      return None;
    }
    var i := 0;
    while i < maxIterations
      invariant 0 <= i <= h.Length
      invariant i <= maxIterations || i == 0
      invariant forall k :: 0 <= k < h.Length ==> h[k] == if k < i then old(h[k]) * (1.0 - gamma) else old(h[k])
    {
      if i >= h.Length {
        return Some(IndexOutOfBounds);
      }
      h[i] := h[i] * (1.0 - gamma);
      i := i + 1;
    }
    return None;
  }

  /** With 0 <= GAMMA <= 1, scaling keeps a non-negative history non-negative
      and never increases an entry. */
  lemma ScaledShrinks(h: seq<real>, n: int, gamma: real)
    requires 0.0 <= gamma <= 1.0
    requires forall i :: 0 <= i < |h| ==> h[i] >= 0.0
    ensures forall i :: 0 <= i < |h| ==> 0.0 <= Scaled(h, n, gamma)[i] <= h[i]
  {
    forall i | 0 <= i < |h|
      ensures 0.0 <= Scaled(h, n, gamma)[i] <= h[i]
    {
      if i < n {
        var v, f := h[i], 1.0 - gamma;
        Shrink(v, f);
        assert Scaled(h, n, gamma)[i] == v * f;
      }
    }
  }

  lemma Shrink(x: real, f: real)
    requires x >= 0.0 && 0.0 <= f <= 1.0
    ensures 0.0 <= x * f <= x
  {
    assert x * f <= x * 1.0;
  }
}
