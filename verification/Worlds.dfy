/**
 * Where the results of an attempt come from. A world says what each Execute can report, which payloads are
 * sent for each signal and what Return is called with; an honest script takes its answers from there.
 */
module Worlds {
  import opened Model
  import opened Program
  import opened Kernel

  datatype World = World(
    gives: (Step, Value) -> bool,        // the value is one that this Execute's function can return
    fails: (Step, Fault) -> bool,        // the error is one that this Execute can report
    sends: (Signal, Payload) -> bool,    // the payload is sent for this signal
    offers: (seq<Obs>, Value) -> bool)   // after this history, errors included, Return can be called with this value

  /** The world in which anything can happen. */
  const ANYTHING: World := World((_, _) => true, (_, _) => true, (_, _) => true, (_, _) => true)

  predicate Honest(w: World, code: Code, k: Kernel, a: Answer) {
    match code(k.obs)
    case Exec(step, _) =>
      k.phase.Calling? ==>
        if a.cancelled then w.fails(step, CANCELLED)
        else (
          match a.fn
          case FnOk(v) => w.gives(step, v)
          case FnFail(e) => w.fails(step, e)
          case FnUnencodable(e) => w.fails(step, e))
    case Await(sig, _) => k.phase.Fetching? && a.fetched && a.slot.Some? ==> w.sends(sig, a.slot.value)
    case Return => k.phase.Call? && k.cursor >= |k.journal| && a.arg.Some? ==> w.offers(k.obs, a.arg.value)
    case _ => true
  }

  predicate HonestRun(w: World, code: Code, k: Kernel, s: seq<Answer>) {
    forall i | 0 <= i < |s| :: Honest(w, code, KRun(code, k, s[..i]), s[i])
  }

  lemma HonestSnoc(w: World, code: Code, k: Kernel, s: seq<Answer>, a: Answer)
    ensures HonestRun(w, code, k, s + [a]) <==> HonestRun(w, code, k, s) && Honest(w, code, KRun(code, k, s), a)
  {
    var all := s + [a];
    assert all[..|s|] == s && all[|s|] == a;
    assert forall i | 0 <= i < |s| :: all[..i] == s[..i] && all[i] == s[i];
  }

  /** A result that this world can produce for this primitive. */
  predicate Honours(w: World, op: Op, o: Obs)
    requires Answers(op, o)
  {
    match o
    case Ran(v) => w.gives(op.step, v)
    case Erred(e) => w.fails(op.step, e)
    case Got(p) => w.sends(op.sig, p)
    case _ => true
  }

  /** Every result of the history was given to the very primitive that can have it. */
  predicate Backed(w: World, code: Code, obs: seq<Obs>) {
    forall i | 0 <= i < |obs| :: Answers(code(obs[..i]), obs[i]) && Honours(w, code(obs[..i]), obs[i])
  }

  lemma BackedSnoc(w: World, code: Code, obs: seq<Obs>, o: Obs)
    ensures Backed(w, code, obs + [o]) <==> Backed(w, code, obs) && Answers(code(obs), o) && Honours(w, code(obs), o)
  {
    var all := obs + [o];
    assert all[..|obs|] == obs && all[|obs|] == o;
    if Backed(w, code, all) {
      forall i | 0 <= i < |obs| ensures Answers(code(obs[..i]), obs[i]) && Honours(w, code(obs[..i]), obs[i]) {
        assert all[..i] == obs[..i] && all[i] == obs[i];
      }
    } else {
      forall i | 0 <= i < |obs| ensures all[..i] == obs[..i] {
      }
    }
  }
}
