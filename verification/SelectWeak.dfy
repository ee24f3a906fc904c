/** The weak/strong selector: a round-robin merge of two fused streams that only the strong one
    can end. */
module SelectWeak {
  import opened Futures

  // ----- the streams underneath -----

  /** A fused stream: once it has ended it is not polled again and keeps answering `End`. */
  datatype Fused<+T> = Fused(script: Script<T>, done: bool) {
    function Ev(): Ev<T> {
      if done then End else Next(script)
    }

    function Step(): Fused<T> {
      if done then this else Fused(Rest(script), Next(script).End?)
    }
  }

  // ----- the selector as a state machine -----

  datatype Sel<+T> = Sel(strong: Fused<T>, weak: Fused<T>, useStrong: bool, weakDone: bool) {

    function WeakEv(): Ev<T> {
      if weakDone || weak.Ev().End? then Pending else weak.Ev()
    }

    function WeakStep(): Sel<T> {
      if weakDone then this else this.(weak := weak.Step(), weakDone := weak.Ev().End?)
    }

    function StrongStep(): Sel<T> {
      this.(strong := strong.Step())
    }

    /** What one poll answers. */
    function Ev(): Ev<T> {
      if !useStrong then
        if WeakEv().Pending? then strong.Ev() else WeakEv()
      else
        if strong.Ev().Pending? then WeakEv() else strong.Ev()
    }

    /** The selector after one poll. */
    function Step(): Sel<T> {
      var flipped := this.(useStrong := !useStrong);
      if !useStrong then
        if WeakEv().Pending? then flipped.WeakStep().StrongStep() else flipped.WeakStep()
      else
        if strong.Ev().Pending? then flipped.StrongStep().WeakStep() else flipped.StrongStep()
    }

    /** The selector after `n` polls. */
    function Run(n: nat): Sel<T>
      decreases n
    {
      if n == 0 then this else Step().Run(n - 1)
    }

    /** The answers of `n` polls. */
    function Answers(n: nat): seq<Ev<T>>
      decreases n
    {
      if n == 0 then [] else [Ev()] + Step().Answers(n - 1)
    }

    function Budget(): nat {
      |strong.script| + |weak.script|
    }
  }

  /** An item uses up at least one answer. */
  lemma ItemCosts<T>(s: Sel<T>)
    requires s.Ev().Item?
    ensures s.Step().Budget() < s.Budget()
  {
  }

  // ----- the merge it refines -----

  /** The answers that carry something: items and errors. */
  function Shown<T>(s: seq<Ev<T>>): seq<Ev<T>> {
    if s == [] then [] else if s[0].Item? || s[0].Fail? then [s[0]] + Shown(s[1..]) else Shown(s[1..])
  }

  /** `out` merges `a` and `b`: each in its own order, nothing lost, nothing twice. */
  ghost predicate Interleaving<T>(out: seq<T>, a: seq<T>, b: seq<T>) {
    if out == [] then
      a == [] && b == []
    else
      || (a != [] && out[0] == a[0] && Interleaving(out[1..], a[1..], b))
      || (b != [] && out[0] == b[0] && Interleaving(out[1..], a, b[1..]))
  }

  lemma {:induction false} ShownAppend<T>(a: seq<Ev<T>>, b: seq<Ev<T>>)
    ensures Shown(a + b) == Shown(a) + Shown(b)
  {
    if a == [] {
      assert a + b == b;
    } else {
      assert (a + b)[1..] == a[1..] + b;
      ShownAppend(a[1..], b);
      assert (a + b)[0] == a[0];
      if a[0].Item? || a[0].Fail? {
        assert Shown(a + b) == [a[0]] + (Shown(a[1..]) + Shown(b));
        assert Shown(a + b) == Shown(a) + Shown(b);
      }
    }
  }

  /** What one poll takes from a fused stream. */
  ghost function Takes<T>(f: Fused<T>): seq<Ev<T>> {
    if f.done || f.script == [] then [] else [f.script[0]]
  }

  ghost function StrongTakes<T>(s: Sel<T>): seq<Ev<T>> {
    if s.useStrong || s.WeakEv().Pending? then Takes(s.strong) else []
  }

  ghost function WeakTakes<T>(s: Sel<T>): seq<Ev<T>> {
    if !s.weakDone && (!s.useStrong || s.strong.Ev().Pending?) then Takes(s.weak) else []
  }

  /** What `n` polls take from each side. */
  ghost function StrongTaken<T>(s: Sel<T>, n: nat): seq<Ev<T>>
    decreases n
  {
    if n == 0 then [] else StrongTakes(s) + StrongTaken(s.Step(), n - 1)
  }

  ghost function WeakTaken<T>(s: Sel<T>, n: nat): seq<Ev<T>>
    decreases n
  {
    if n == 0 then [] else WeakTakes(s) + WeakTaken(s.Step(), n - 1)
  }

  lemma StepTakes<T>(s: Sel<T>)
    ensures s.strong.script == StrongTakes(s) + s.Step().strong.script
    ensures s.weak.script == WeakTakes(s) + s.Step().weak.script
  {
  }

  /** One poll passes on exactly what it took. */
  lemma StepShows<T>(s: Sel<T>)
    ensures |Shown([s.Ev()])| <= 1
    ensures || (Shown([s.Ev()]) == Shown(StrongTakes(s)) && Shown(WeakTakes(s)) == [])
            || (Shown([s.Ev()]) == Shown(WeakTakes(s)) && Shown(StrongTakes(s)) == [])
  {
  }

  lemma {:induction false} Glue<T>(one: seq<T>, oneA: seq<T>, oneB: seq<T>, out: seq<T>, a: seq<T>, b: seq<T>)
    requires |one| <= 1 && ((one == oneA && oneB == []) || (one == oneB && oneA == []))
    requires Interleaving(out, a, b)
    ensures Interleaving(one + out, oneA + a, oneB + b)
  {
    assert [] + a == a && [] + b == b && [] + out == out;
    if one != [] {
      assert (one + out)[1..] == out && (one + a)[1..] == a && (one + b)[1..] == b;
    }
  }

  lemma {:induction false} StrongPrefix<T>(s: Sel<T>, n: nat)
    ensures s.strong.script == StrongTaken(s, n) + s.Run(n).strong.script
    decreases n
  {
    hide StrongTakes;
    if n > 0 {
      StrongPrefix(s.Step(), n - 1);
      StepTakes(s);
      Associate(StrongTakes(s), StrongTaken(s.Step(), n - 1), s.Run(n).strong.script);
    }
  }

  lemma {:induction false} WeakPrefix<T>(s: Sel<T>, n: nat)
    ensures s.weak.script == WeakTaken(s, n) + s.Run(n).weak.script
    decreases n
  {
    hide WeakTakes;
    if n > 0 {
      WeakPrefix(s.Step(), n - 1);
      StepTakes(s);
      Associate(WeakTakes(s), WeakTaken(s.Step(), n - 1), s.Run(n).weak.script);
    }
  }

  lemma Associate<T>(a: seq<T>, b: seq<T>, c: seq<T>)
    ensures a + (b + c) == a + b + c
  {
  }

  lemma {:induction false} AnswersMerge<T>(s: Sel<T>, n: nat)
    ensures Interleaving(Shown(s.Answers(n)), Shown(StrongTaken(s, n)), Shown(WeakTaken(s, n)))
    decreases n
  {
    if n > 0 {
      var t := s.Step();
      AnswersMerge(t, n - 1);
      StepShows(s);
      ShownAppend([s.Ev()], t.Answers(n - 1));
      ShownAppend(StrongTakes(s), StrongTaken(t, n - 1));
      ShownAppend(WeakTakes(s), WeakTaken(t, n - 1));
      Glue(Shown([s.Ev()]), Shown(StrongTakes(s)), Shown(WeakTakes(s)),
           Shown(t.Answers(n - 1)), Shown(StrongTaken(t, n - 1)), Shown(WeakTaken(t, n - 1)));
    }
  }

  /** Refinement: over any run, what is taken from each stream is a prefix of it, and the answers
      are an interleaving of the two prefixes. */
  lemma RefinesMerge<T>(s: Sel<T>, n: nat)
    ensures s.strong.script == StrongTaken(s, n) + s.Run(n).strong.script
    ensures s.weak.script == WeakTaken(s, n) + s.Run(n).weak.script
    ensures Interleaving(Shown(s.Answers(n)), Shown(StrongTaken(s, n)), Shown(WeakTaken(s, n)))
  {
    StrongPrefix(s, n);
    WeakPrefix(s, n);
    AnswersMerge(s, n);
  }

  // ----- fairness and ending -----

  /** A strong item that is ready waits behind at most one answer of the weak side. */
  lemma StrongIsServed<T>(s: Sel<T>)
    requires s.strong.Ev().Item?
    ensures s.Ev() == s.strong.Ev()
            || (s.Ev() == s.weak.Ev() && s.Step().Ev() == s.strong.Ev())
  {
  }

  /** A weak item that is ready waits behind at most one answer of the strong side. */
  lemma WeakIsServed<T>(s: Sel<T>)
    requires !s.weakDone && s.weak.Ev().Item?
    ensures s.Ev() == s.weak.Ev()
            || (s.Ev() == s.strong.Ev() && s.Step().Ev() == s.weak.Ev())
  {
  }

  /** Over any run, the merge has ended only if the strong stream has. */
  lemma {:induction false} OnlyStrongEnds<T>(s: Sel<T>, n: nat)
    requires End in s.Answers(n)
    ensures s.Run(n).strong.done
    decreases n
  {
    if s.Ev().End? {
      StrongStaysDone(s.Step(), n - 1);
    } else {
      OnlyStrongEnds(s.Step(), n - 1);
    }
  }

  lemma {:induction false} StrongStaysDone<T>(s: Sel<T>, n: nat)
    requires s.strong.done
    ensures s.Run(n).strong.done
    decreases n
  {
    if n > 0 {
      StrongStaysDone(s.Step(), n - 1);
    }
  }

  /** Once the strong stream is exhausted, the end comes within two polls, after at most one
      answer of the weak stream. */
  lemma EndsWithinTwoPolls<T>(s: Sel<T>)
    requires s.strong.Ev().End?
    ensures s.Ev().End? || (s.Ev() == s.weak.Ev() && s.Step().Ev().End?)
    ensures |s.weak.script| - |s.Run(2).weak.script| <= 1
  {
    assert s.Run(2) == s.Step().Run(1) == s.Step().Step();
  }

  /** The merge itself is not fused. Polled after its strong stream has ended, it answers with the end
      again exactly if it is the strong side's turn or the weak side has nothing; otherwise it hands
      out what the weak side has. */
  lemma AfterTheEnd<T>(s: Sel<T>)
    requires s.strong.done
    ensures s.Ev().End? <==> s.useStrong || s.WeakEv().Pending?
    ensures !s.Ev().End? ==> s.Ev() == s.WeakEv() && (s.Ev().Item? || s.Ev().Fail?)
    ensures s.Step().strong.done && s.Step().useStrong == !s.useStrong
  {
  }

  // ----- what was selected -----

  lemma {:induction false} InterleaveOneA<T>(out: seq<T>, a: seq<T>, b: seq<T>, x: T)
    requires Interleaving(out, a, b)
    ensures Interleaving(out + [x], a + [x], b)
    decreases |out|
  {
    if out == [] {
      assert ([] + [x])[1..] == [] && (a + [x])[1..] == [];
    } else {
      assert (out + [x])[1..] == out[1..] + [x];
      if a != [] && out[0] == a[0] && Interleaving(out[1..], a[1..], b) {
        InterleaveOneA(out[1..], a[1..], b, x);
        assert (a + [x])[1..] == a[1..] + [x];
      } else {
        InterleaveOneA(out[1..], a, b[1..], x);
      }
    }
  }

  lemma {:induction false} InterleaveSwap<T>(out: seq<T>, a: seq<T>, b: seq<T>)
    requires Interleaving(out, a, b)
    ensures Interleaving(out, b, a)
    decreases |out|
  {
    if out != [] {
      if a != [] && out[0] == a[0] && Interleaving(out[1..], a[1..], b) {
        InterleaveSwap(out[1..], a[1..], b);
      } else {
        InterleaveSwap(out[1..], a, b[1..]);
      }
    }
  }

  lemma InterleaveOneB<T>(out: seq<T>, a: seq<T>, b: seq<T>, x: T)
    requires Interleaving(out, a, b)
    ensures Interleaving(out + [x], a, b + [x])
  {
    InterleaveSwap(out, a, b);
    InterleaveOneA(out, b, a, x);
    InterleaveSwap(out + [x], b + [x], a);
  }

  /** Of the items `a` handed to the strong side and `b` handed to the weak side, `out` merges those
      that have left, in order; the others are still in the streams. */
  ghost predicate Selected<T>(sel: Sel<T>, out: seq<T>, a: seq<T>, b: seq<T>) {
    var inA, inB := Items(sel.strong.script), Items(sel.weak.script);
    && Suffix(a, inA) && Suffix(b, inB)
    && Interleaving(out, Left(a, inA), Left(b, inB))
  }

  ghost predicate Suffix<T>(all: seq<T>, rest: seq<T>) {
    |rest| <= |all| && all[|all| - |rest|..] == rest
  }

  /** What has left when `rest` is left. */
  ghost function Left<T>(all: seq<T>, rest: seq<T>): seq<T>
    requires |rest| <= |all|
  {
    all[..|all| - |rest|]
  }

  /** One step of a fused stream, seen on its items. */
  lemma FusedItems<T>(f: Fused<T>, all: seq<T>)
    requires Suffix(all, Items(f.script))
    ensures Suffix(all, Items(f.Step().script))
    ensures Left(all, Items(f.Step().script))
         == Left(all, Items(f.script)) + (if f.Ev().Item? then [f.Ev().item] else [])
  {
  }

  lemma SelectedStep<T>(sel: Sel<T>, out: seq<T>, a: seq<T>, b: seq<T>)
    requires Selected(sel, out, a, b)
    ensures Selected(sel.Step(), out + (if sel.Ev().Item? then [sel.Ev().item] else []), a, b)
  {
    hide Interleaving, Items;
    FusedItems(sel.strong, a);
    FusedItems(sel.weak, b);
    assert out + [] == out;
    var t := sel.Step();
    assert t.strong.script in {sel.strong.script, sel.strong.Step().script};
    assert t.weak.script in {sel.weak.script, sel.weak.Step().script};
    var outA, outB := Left(a, Items(sel.strong.script)), Left(b, Items(sel.weak.script));
    if sel.Ev().Item? {
      InterleaveOneA(out, outA, outB, sel.Ev().item);
      InterleaveOneB(out, outA, outB, sel.Ev().item);
    }
  }

  /** More items are handed to either side. */
  lemma SelectedMore<T>(sel: Sel<T>, out: seq<T>, a: seq<T>, b: seq<T>, moreA: Script<T>, moreB: Script<T>)
    requires Selected(sel, out, a, b)
    ensures Selected(sel.(strong := sel.strong.(script := sel.strong.script + moreA),
                          weak := sel.weak.(script := sel.weak.script + moreB)),
                     out, a + Items(moreA), b + Items(moreB))
  {
    ItemsAppend(sel.strong.script, moreA);
    ItemsAppend(sel.weak.script, moreB);
    LeftMore(a, Items(sel.strong.script), Items(moreA));
    LeftMore(b, Items(sel.weak.script), Items(moreB));
  }

  lemma LeftMore<T>(all: seq<T>, rest: seq<T>, more: seq<T>)
    requires Suffix(all, rest)
    ensures Suffix(all + more, rest + more) && Left(all + more, rest + more) == Left(all, rest)
  {
  }

  // ----- quiescence -----

  /** Neither stream has anything ready. */
  ghost predicate NothingReady<T>(before: Sel<T>, after: Sel<T>) {
    && Drained(before.strong.script, after.strong.script)
    && (after.weakDone || Drained(before.weak.script, after.weak.script))
  }

  lemma PendingMeansNothing<T>(s: Sel<T>)
    requires s.Ev().Pending?
    ensures NothingReady(s, s.Step())
  {
  }

  lemma NothingReadyOnce<T>(s: Sel<T>, after: Sel<T>)
    requires s.Ev().Item? && NothingReady(s.Step(), after)
    ensures NothingReady(s, after)
  {
    if s.Step().strong.script != s.strong.script {
      DrainedOnce(s.strong.script, after.strong.script);
    }
    if !after.weakDone && s.Step().weak.script != s.weak.script {
      DrainedOnce(s.weak.script, after.weak.script);
    }
  }

  // ----- the selector as an object -----

  /** A channel or stream behind a fuse. `Push` is what the sending half of a channel does. */
  class Fuse<T> {
    var script: Script<T>
    var done: bool

    constructor (script: Script<T>)
      ensures State() == Fused(script, false)
    {
      this.script := script;
      done := false;
    }

    ghost function State(): Fused<T>
      reads this
    {
      Fused(script, done)
    }

    method Poll() returns (ev: Ev<T>)
      modifies this
      ensures ev == old(State()).Ev()
      ensures State() == old(State()).Step()
    {
      if done {
        return End;
      }
      if |script| == 0 {
        return Pending;
      }
      ev := script[0];
      script := script[1..];
      if ev.End? {
        done := true;
      }
    }

    method Push(x: T)
      modifies this
      ensures State() == old(State()).(script := old(script) + [Item(x)])
    {
      script := script + [Item(x)];
    }
  }

  class SelectWithWeak<T> {
    const strong: Fuse<T>
    const weak: Fuse<T>
    var useStrong: bool
    var weakDone: bool

    constructor (strong: Fuse<T>, weak: Fuse<T>)
      requires strong != weak
      ensures Valid() && this.strong == strong && this.weak == weak
      ensures State() == Sel(strong.State(), weak.State(), false, false)
    {
      this.strong, this.weak := strong, weak;
      useStrong, weakDone := false, false;
    }

    ghost predicate Valid()
      reads this
    {
      strong != weak
    }

    ghost function State(): Sel<T>
      reads this, strong, weak
    {
      Sel(strong.State(), weak.State(), useStrong, weakDone)
    }

    method CheckWeak() returns (ev: Ev<T>)
      requires Valid()
      modifies this, weak
      ensures ev == old(State()).WeakEv()
      ensures State() == old(State()).WeakStep()
    {
      if weakDone {
        return Pending;
      }
      ev := weak.Poll();
      if ev.End? {
        weakDone := true;
        ev := Pending;
      }
    }

    method Poll() returns (ev: Ev<T>)
      requires Valid()
      modifies this, strong, weak
      ensures ev == old(State()).Ev()
      ensures State() == old(State()).Step()
    {
      if !useStrong {
        useStrong := true;
        ev := CheckWeak();
        if ev.Pending? {
          ev := strong.Poll();
        }
      } else {
        useStrong := false;
        ev := strong.Poll();
        if ev.Pending? {
          ev := CheckWeak();
        }
      }
    }
  }
}
