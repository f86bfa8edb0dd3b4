/** Continuations of a run. */
module ProtocolExec {
  import opened Protocol
  import opened ProtocolInvariant
  import opened ProtocolSteps

  /** The labels can be taken one after the other from `st`. */
  ghost predicate CanExec(st: State, ls: seq<Label>)
    decreases |ls|
  {
    ls == [] || (Enabled(st, ls[0]) && CanExec(Apply(st, ls[0]), ls[1..]))
  }

  ghost function Exec(st: State, ls: seq<Label>): (st': State)
    requires CanExec(st, ls)
    decreases |ls|
  {
    if ls == [] then st else Exec(Apply(st, ls[0]), ls[1..])
  }

  lemma ExecAppend(st: State, ls: seq<Label>, ls': seq<Label>)
    requires CanExec(st, ls) && CanExec(Exec(st, ls), ls')
    ensures CanExec(st, ls + ls') && Exec(st, ls + ls') == Exec(Exec(st, ls), ls')
    decreases |ls|
  {
    hide Enabled, Apply;
    if ls == [] {
      assert ls + ls' == ls';
    } else {
      ExecAppend(Apply(st, ls[0]), ls[1..], ls');
      assert (ls + ls')[0] == ls[0] && (ls + ls')[1..] == ls[1..] + ls';
    }
  }

  lemma ExecKeeps(st: State, ls: seq<Label>)
    requires Inv(st) && CanExec(st, ls)
    ensures Inv(Exec(st, ls)) && Extends(st, Exec(st, ls))
    decreases |ls|
  {
    hide Inv, Enabled, Apply, Extends;
    if ls == [] {
      ExtendsSelf(st);
    } else {
      StepKeeps(st, ls[0]);
      ExecKeeps(Apply(st, ls[0]), ls[1..]);
      ExtendsTrans(st, Apply(st, ls[0]), Exec(st, ls));
    }
  }

  /** Whatever can be taken from the last state of a run continues that run. */
  lemma ExecContinuesRun(ss: seq<State>, ls: seq<Label>, ls': seq<Label>) returns (ss': seq<State>)
    requires IsRun(ss, ls) && CanExec(ss[|ls|], ls')
    ensures IsRun(ss', ls + ls') && ss <= ss' && ss'[|ls + ls'|] == Exec(ss[|ls|], ls')
    decreases |ls'|
  {
    hide Enabled, Apply, Init;
    if ls' == [] {
      assert ls + ls' == ls;
      ss' := ss;
    } else {
      var st := Apply(ss[|ls|], ls'[0]);
      assert IsRun(ss + [st], ls + [ls'[0]]);
      ss' := ExecContinuesRun(ss + [st], ls + [ls'[0]], ls'[1..]);
      assert ls + [ls'[0]] + ls'[1..] == ls + ls';
    }
  }

  lemma Exec1(st: State, l: Label)
    requires Enabled(st, l)
    ensures CanExec(st, [l]) && Exec(st, [l]) == Apply(st, l)
  {
    assert [l][1..] == [];
  }

  lemma ExecSnoc(st: State, ls: seq<Label>, l: Label)
    requires CanExec(st, ls) && Enabled(Exec(st, ls), l)
    ensures CanExec(st, ls + [l]) && Exec(st, ls + [l]) == Apply(Exec(st, ls), l)
  {
    hide Enabled, Apply;
    Exec1(Exec(st, ls), l);
    ExecAppend(st, ls, [l]);
  }
}
