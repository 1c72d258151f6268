/**
 * The compiled agent graph: `START -> retriever -> assistant`, then
 * `assistant -> tools` while the model's last message asks for a tool
 * (`tools_condition`), `tools -> assistant`, and `assistant -> END` otherwise.
 */
module AgentGraph {
  import opened Wrappers

  datatype Node = Start | Retriever | Assistant | Tools | End

  /** The successor of `n`; `wantsTool` is whether the model's last message requested a tool, and only `assistant` reads it. */
  function Next(n: Node, wantsTool: bool): (r: Option<Node>)
    ensures r.None? <==> n == End
    ensures r != Some(Start)
    ensures r == Some(Retriever) <==> n == Start
    ensures r == Some(Tools) <==> n == Assistant && wantsTool
    ensures r == Some(End) <==> n == Assistant && !wantsTool
  {
    match n
    case Start => Some(Retriever)
    case Retriever => Some(Assistant)
    case Assistant => if wantsTool then Some(Tools) else Some(End)
    case Tools => Some(Assistant)
    case End => None
  }

  predicate Edge(a: Node, b: Node) {
    Next(a, false) == Some(b) || Next(a, true) == Some(b)
  }

  /** Consecutive nodes of `p` are joined by edges of the graph. */
  predicate Steps(p: seq<Node>) {
    forall i :: 0 <= i < |p| - 1 ==> Edge(p[i], p[i + 1])
  }

  /** A (possibly unfinished) execution of the graph. */
  predicate IsRun(p: seq<Node>) {
    p != [] && p[0] == Start && Steps(p)
  }

  /** The nodes visited after an `assistant` turn, when its successive turns decide `choices`. */
  function Loop(choices: seq<bool>): seq<Node> {
    if choices == [] then []
    else if !choices[0] then [End]
    else [Tools, Assistant] + Loop(choices[1..])
  }

  /** The execution in which the model's successive replies decide `choices` (`true`: a tool is requested). */
  function Run(choices: seq<bool>): seq<Node> {
    [Start, Retriever, Assistant] + Loop(choices)
  }

  lemma {:induction false} LoopSteps(choices: seq<bool>)
    ensures Steps([Assistant] + Loop(choices))
  {
    if choices != [] && choices[0] {
      LoopSteps(choices[1..]);
      var t := [Assistant] + Loop(choices[1..]);
      assert [Assistant] + Loop(choices) == [Assistant, Tools] + t;
    }
  }

  /** Every decision sequence gives an execution of the graph. */
  lemma RunIsRun(choices: seq<bool>)
    ensures IsRun(Run(choices))
  {
    LoopSteps(choices);
    assert Run(choices) == [Start, Retriever] + ([Assistant] + Loop(choices));
  }

  /** `retriever` runs first and only once; it and `tools` always hand over to `assistant`; only `assistant` ends the run, and `END` is final. */
  lemma RunShape(p: seq<Node>)
    requires IsRun(p)
    ensures |p| > 1 ==> p[1] == Retriever
    ensures forall i :: 0 <= i < |p| && p[i] == Retriever ==> i == 1
    ensures forall i :: 0 <= i < |p| - 1 && (p[i] == Retriever || p[i] == Tools) ==> p[i + 1] == Assistant
    ensures forall i :: 0 < i < |p| && p[i] == End ==> p[i - 1] == Assistant && i == |p| - 1
  {
    forall i | 0 < i < |p| ensures p[i] != Start {
      assert Edge(p[i - 1], p[i]);
    }
    forall i | 0 <= i < |p| && p[i] == Retriever ensures i == 1 {
      if i > 0 { assert Edge(p[i - 1], p[i]); }
    }
    forall i | 0 <= i < |p| - 1 ensures p[i] != End {
      assert Edge(p[i], p[i + 1]);
    }
    forall i | 0 < i < |p| && p[i] == End ensures p[i - 1] == Assistant {
      assert Edge(p[i - 1], p[i]);
    }
  }

  /** The decisions the model took along the tail of a run after an `assistant` visit. */
  function Decisions(q: seq<Node>): seq<bool>
    decreases |q|
  {
    if q == [] then []
    else if q[0] != Tools then [false]
    else [true] + Decisions(if |q| >= 2 then q[2..] else [])
  }

  lemma {:induction false} LoopCovers(q: seq<Node>)
    requires Steps([Assistant] + q)
    ensures q <= Loop(Decisions(q))
    decreases |q|
  {
    var s := [Assistant] + q;
    if q != [] {
      assert Edge(s[0], s[1]);
      if q[0] == Tools && |q| >= 2 {
        assert Edge(s[1], s[2]);
        var t := q[2..];
        assert [Assistant] + t == s[2..];
        LoopCovers(t);
      }
      assert |q| >= 2 ==> Edge(s[1], s[2]);
    }
  }

  /** Every execution of the graph is a prefix of the one its own assistant decisions produce. */
  lemma RunsAreDecided(p: seq<Node>)
    requires IsRun(p)
    ensures p <= Run(Decisions(if |p| >= 3 then p[3..] else []))
  {
    RunShape(p);
    if |p| >= 3 {
      assert Edge(p[1], p[2]);
      assert [Assistant] + p[3..] == p[2..];
      LoopCovers(p[3..]);
    }
  }

  /** The run ends exactly when the model stops requesting tools, after one `tools` visit per request. */
  lemma {:induction false} LoopEnds(choices: seq<bool>, n: nat)
    requires n <= |choices| && (forall i :: 0 <= i < n ==> choices[i]) && (n < |choices| ==> !choices[n])
    ensures n < |choices| ==> Loop(choices) == Loop(choices[..n]) + [End]
    ensures |Loop(choices[..n])| == 2 * n
    ensures forall i :: 0 <= i < 2 * n ==> Loop(choices[..n])[i] == (if i % 2 == 0 then Tools else Assistant)
  {
    if n > 0 {
      var c := choices[1..];
      assert c[..n - 1] == choices[..n][1..];
      LoopEnds(c, n - 1);
    }
  }
}
