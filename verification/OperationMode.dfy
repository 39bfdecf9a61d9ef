/** Switching every sub-HAL to a new operation mode, and back when one refuses. */
module OperationModes {
  import opened Wrappers

  datatype OperationMode = NORMAL | DATA_INJECTION

  /** What one sub-HAL answers during one call of setOperationMode: to the new
      mode, and to the old mode if it is rolled back. */
  datatype Answers = Answers(forward: Result, back: Result)

  /** The first sub-HAL that refuses the new mode, or their number if none does. */
  function FirstRefusal(answers: seq<Answers>): (k: nat)
    ensures k <= |answers|
    ensures forall i :: 0 <= i < k ==> answers[i].forward == OK
    ensures k < |answers| ==> answers[k].forward != OK
  {
    if answers == [] || answers[0].forward != OK then 0 else 1 + FirstRefusal(answers[1..])
  }

  /** A sub-HAL switches when it answers OK, and keeps its mode otherwise. */
  function ModeAfter(mode: OperationMode, target: OperationMode, answer: Result): OperationMode {
    if answer == OK then target else mode
  }

  /** The mode the proxy believes in, and the modes its sub-HALs are in. */
  datatype Modes = Modes(current: OperationMode, subHals: seq<OperationMode>) {
    ghost predicate Agreed() {
      forall i :: 0 <= i < |subHals| ==> subHals[i] == current
    }
  }

  function Switch(m: Modes, mode: OperationMode, answers: seq<Answers>): (r: (Modes, Result))
    requires |answers| == |m.subHals|
  {
    var k := FirstRefusal(answers);
    if k == |answers| then (Modes(mode, seq(k, _ => mode)), OK)
    else
      var rolledBack := seq(k, i requires 0 <= i < k => ModeAfter(mode, m.current, answers[i].back));
      (Modes(m.current, rolledBack + m.subHals[k..]), answers[k].forward)
  }

  lemma FirstRefusalIs(answers: seq<Answers>, k: nat)
    requires k <= |answers|
    requires forall i :: 0 <= i < k ==> answers[i].forward == OK
    requires k < |answers| ==> answers[k].forward != OK
    ensures FirstRefusal(answers) == k
  {}

  /** Mode by mode, what a refused switch leaves behind. */
  lemma RefusedSwitch(m: Modes, mode: OperationMode, answers: seq<Answers>, modes: seq<OperationMode>)
    requires |answers| == |m.subHals| == |modes|
    requires var k := FirstRefusal(answers);
             && k < |answers|
             && (forall i :: 0 <= i < k ==> modes[i] == ModeAfter(mode, m.current, answers[i].back))
             && modes[k..] == m.subHals[k..]
    ensures Switch(m, mode, answers) == (Modes(m.current, modes), answers[FirstRefusal(answers)].forward)
  {
    var k := FirstRefusal(answers);
    assert modes == modes[..k] + modes[k..];
    assert modes[..k] == Switch(m, mode, answers).0.subHals[..k];
  }

  /** From an agreed mode, a switch that every sub-HAL accepts ends in agreement
      on the new mode. A refused one leaves the old mode in force, and ends in
      agreement on it exactly when the sub-HALs before the refusing one accept
      the rollback (or there was nothing to switch). */
  lemma SwitchIsAllOrNothing(m: Modes, mode: OperationMode, answers: seq<Answers>)
    requires |answers| == |m.subHals| && m.Agreed()
    ensures var (after, result) := Switch(m, mode, answers);
            && |after.subHals| == |m.subHals|
            && (result == OK <==> forall i :: 0 <= i < |answers| ==> answers[i].forward == OK)
            && (result == OK ==> after.current == mode && after.Agreed())
            && (result != OK ==>
                  && after.current == m.current
                  && (after.Agreed() <==>
                        mode == m.current ||
                        forall i :: 0 <= i < FirstRefusal(answers) ==> answers[i].back == OK))
  {
    var (after, result) := Switch(m, mode, answers);
    var k := FirstRefusal(answers);
    assert forall i :: 0 <= i < k < |answers| ==> after.subHals[i] == ModeAfter(mode, m.current, answers[i].back);
    assert forall i :: k <= i < |answers| ==> after.subHals[i] == m.subHals[i];
  }

  /** Sub-HAL by sub-HAL, from any modes: those before the first that refuses are
      in the proxy's old mode again if they accept the rollback, and stay in the
      new one if not; it and those behind it are not touched; and the caller is
      told its answer. */
  lemma SwitchesExactly(m: Modes, mode: OperationMode, answers: seq<Answers>, k: nat, i: nat)
    requires |answers| == |m.subHals| && i < |answers|
    requires k <= |answers| && (k < |answers| ==> answers[k].forward != OK)
    requires forall j :: 0 <= j < k ==> answers[j].forward == OK
    ensures var (after, result) := Switch(m, mode, answers);
            && |after.subHals| == |m.subHals|
            && result == (if k < |answers| then answers[k].forward else OK)
            && after.current == (if k < |answers| then m.current else mode)
            && after.subHals[i] ==
               (if i >= k then m.subHals[i]
                else if k < |answers| && answers[i].back == OK then m.current
                else mode)
  {
    FirstRefusalIs(answers, k);
  }

  /** What changes the modes: a call of setOperationMode, or an initialisation,
      which puts the proxy into normal mode and leaves each sub-HAL in the mode
      that its own initialize chooses. */
  datatype Request = SetMode(mode: OperationMode, answers: seq<Answers>) | Initialize(modes: seq<OperationMode>)

  predicate Fits(r: Request, n: nat) {
    match r
    case SetMode(_, answers) => |answers| == n
    case Initialize(modes) => |modes| == n
  }

  function Serve(m: Modes, r: Request): (after: Modes)
    requires Fits(r, |m.subHals|)
    ensures |after.subHals| == |m.subHals|
  {
    match r
    case SetMode(mode, answers) => Switch(m, mode, answers).0
    case Initialize(modes) => Modes(NORMAL, modes)
  }

  function ServeAll(m: Modes, requests: seq<Request>): (after: Modes)
    requires forall r :: r in requests ==> Fits(r, |m.subHals|)
    ensures |after.subHals| == |m.subHals|
  {
    if requests == [] then m
    else
      var n := |requests| - 1;
      Serve(ServeAll(m, requests[..n]), requests[n])
  }

  /** What a well-behaved list of sub-HALs does: accept every rollback, and come
      out of an initialisation in normal mode. */
  ghost predicate Cooperative(r: Request) {
    match r
    case SetMode(_, answers) => forall a :: a in answers ==> a.back == OK
    case Initialize(modes) => forall mode :: mode in modes ==> mode == NORMAL
  }

  /** The mode of the last request that everybody accepted, where an
      initialisation counts as one for normal mode. */
  ghost function LastAccepted(mode: OperationMode, requests: seq<Request>): OperationMode {
    if requests == [] then mode
    else
      var n := |requests| - 1;
      match requests[n]
      case Initialize(_) => NORMAL
      case SetMode(target, answers) =>
        if forall a :: a in answers ==> a.forward == OK then target
        else LastAccepted(mode, requests[..n])
  }

  /** Cooperative sub-HALs never disagree with the proxy, whatever is requested
      and whoever refuses it, across initialisations; and the mode in force is
      the last one that everybody accepted. */
  lemma {:induction false} AgreementIsKept(m: Modes, requests: seq<Request>)
    requires m.Agreed()
    requires forall r :: r in requests ==> Fits(r, |m.subHals|) && Cooperative(r)
    ensures var after := ServeAll(m, requests);
            && after.Agreed()
            && after.current == LastAccepted(m.current, requests)
  {
    if requests != [] {
      var n := |requests| - 1;
      assert requests[n] in requests;
      AgreementIsKept(m, requests[..n]);
      match requests[n]
      case Initialize(modes) =>
        assert forall i :: 0 <= i < |modes| ==> modes[i] in modes;
      case SetMode(mode, answers) =>
        SwitchIsAllOrNothing(ServeAll(m, requests[..n]), mode, answers);
        assert (forall a :: a in answers ==> a.forward == OK) <==>
               forall i :: 0 <= i < |answers| ==> answers[i].forward == OK;
    }
  }

  class ModeSwitch {
    var mCurrentOperationMode: OperationMode
    var subHalModes: seq<OperationMode>

    ghost function View(): Modes
      reads this
    {
      Modes(mCurrentOperationMode, subHalModes)
    }

    constructor (modes: seq<OperationMode>, mode: OperationMode)
      ensures View() == Modes(mode, modes)
    {
      subHalModes, mCurrentOperationMode := modes, mode;
    }

    method CallSubHal(i: nat, mode: OperationMode, answer: Result) returns (result: Result)
      requires i < |subHalModes|
      modifies this`subHalModes
      ensures result == answer
      ensures subHalModes == old(subHalModes)[i := ModeAfter(old(subHalModes[i]), mode, answer)]
    {
      result := answer;
      subHalModes := subHalModes[i := ModeAfter(subHalModes[i], mode, answer)];
    }

    /** Asks the first k sub-HALs to go back to the proxy's own mode. */
    method RollBack(k: nat, answers: seq<Answers>)
      requires k <= |answers| == |subHalModes|
      modifies this`subHalModes
      ensures |subHalModes| == |answers|
      ensures forall i :: 0 <= i < k ==>
                subHalModes[i] == ModeAfter(old(subHalModes[i]), mCurrentOperationMode, answers[i].back)
      ensures subHalModes[k..] == old(subHalModes[k..])
    {
      for i := 0 to k
        invariant |subHalModes| == |answers|
        invariant forall j :: 0 <= j < i ==>
                    subHalModes[j] == ModeAfter(old(subHalModes[j]), mCurrentOperationMode, answers[j].back)
        invariant subHalModes[i..] == old(subHalModes[i..])
      {
        assert subHalModes[i] == subHalModes[i..][0] == old(subHalModes[i..])[0];
        assert old(subHalModes[i + 1..]) == old(subHalModes[i..])[1..];
        var _ := CallSubHal(i, mCurrentOperationMode, answers[i].back);
      }
    }

    /** Asks the sub-HALs in turn to switch, until one refuses. */
    method SwitchForward(mode: OperationMode, answers: seq<Answers>) returns (subHalIndex: nat, result: Result)
      requires |answers| == |subHalModes|
      modifies this`subHalModes
      ensures subHalIndex == FirstRefusal(answers) && |subHalModes| == |answers|
      ensures result == if subHalIndex == |answers| then OK else answers[subHalIndex].forward
      ensures forall i :: 0 <= i < subHalIndex ==> subHalModes[i] == mode
      ensures subHalModes[subHalIndex..] == old(subHalModes[subHalIndex..])
    {
      subHalIndex, result := 0, OK;
      while subHalIndex < |subHalModes|
        invariant subHalIndex <= |subHalModes| == |answers| && result == OK
        invariant forall i :: 0 <= i < subHalIndex ==> answers[i].forward == OK && subHalModes[i] == mode
        invariant subHalModes[subHalIndex..] == old(subHalModes[subHalIndex..])
      {
        assert old(subHalModes[subHalIndex + 1..]) == old(subHalModes[subHalIndex..])[1..];
        result := CallSubHal(subHalIndex, mode, answers[subHalIndex].forward);
        if result != OK {
          assert subHalModes[subHalIndex..] == old(subHalModes[subHalIndex..]);
          break;
        }
        subHalIndex := subHalIndex + 1;
      }
      FirstRefusalIs(answers, subHalIndex);
    }

    method SetOperationMode(mode: OperationMode, answers: seq<Answers>) returns (result: Result)
      requires |answers| == |subHalModes|
      modifies this
      ensures (View(), result) == Switch(old(View()), mode, answers)
    {
      var subHalIndex;
      subHalIndex, result := SwitchForward(mode, answers);
      if result != OK {
        RollBack(subHalIndex, answers);
        RefusedSwitch(old(View()), mode, answers, subHalModes);
      } else {
        mCurrentOperationMode := mode;
        assert subHalModes == seq(subHalIndex, _ => mode);
      }
    }

    /** What initializeCommon does to the modes: every sub-HAL initialises, and
        the proxy takes normal mode for granted. */
    method Initialize(modes: seq<OperationMode>)
      requires |modes| == |subHalModes|
      modifies this
      ensures View() == Serve(old(View()), Request.Initialize(modes)) == Modes(NORMAL, modes)
    {
      for i := 0 to |modes|
        invariant |subHalModes| == |modes| && subHalModes[..i] == modes[..i]
      {
        subHalModes := subHalModes[i := modes[i]];
      }
      mCurrentOperationMode := NORMAL;
    }
  }
}
