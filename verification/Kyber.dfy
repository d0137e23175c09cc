/**
 * struct kyber_hctx_data and its methods (block/kyber-iosched.c), with the tokens of the four
 * domains. Each method is proved equal to its function on the model's state.
 */
module Kyber {
  import opened KyberModel

  /** The domain `i` turns after `d`. */
  ghost function Turns(d: nat, i: nat): nat { if i == 0 then d else Succ(Turns(d, i - 1)) }

  lemma {:induction false} OnceRound(d: nat)
    requires d < NUM_DOMAINS
    ensures Turns(d, NUM_DOMAINS) == d
  {
    assert Turns(d, 4) == Succ(Succ(Succ(Succ(d)))) by {
      assert Turns(d, 1) == Succ(d);
      assert Turns(d, 2) == Succ(Turns(d, 1));
      assert Turns(d, 3) == Succ(Turns(d, 2));
    }
  }

  class KyberHctxData {
    var doms: seq<Domain>
    var curDomain: nat
    var batching: nat

    ghost predicate Ok()
      reads this
    {
      Inv(Snap())
    }

    ghost function Snap(): (s: State)
      reads this
    {
      State(doms, curDomain, batching)
    }

    constructor (nrCtx: nat, tokens: seq<nat>)
      requires |tokens| == NUM_DOMAINS
      ensures Ok() && curDomain == batching == 0
      ensures forall d :: 0 <= d < NUM_DOMAINS ==> doms[d].rqs == [] && doms[d].bits == {} && |doms[d].kcq| == nrCtx
      ensures forall d :: 0 <= d < NUM_DOMAINS ==> doms[d].free == tokens[d] && doms[d].used == 0
    {
      var none := seq(nrCtx, _ => []);
      doms := seq(NUM_DOMAINS, d requires 0 <= d < NUM_DOMAINS => Domain([], none, {}, tokens[d], 0));
      curDomain, batching := 0, 0;
    }

    /** kyber_insert_requests for one request. */
    method Insert(d: nat, c: nat, rq: nat, atHead: bool)
      requires Ok() && d < NUM_DOMAINS && c < |doms[d].kcq|
      modifies this`doms
      ensures Ok() && Snap() == Apply(old(Snap()), Step.Insert(d, c, rq, atHead))
    {
      StepKeepsInv(Snap(), Step.Insert(d, c, rq, atHead));
      var kcq := doms[d].kcq;
      kcq := if atHead then kcq[c := [rq] + kcq[c]] else kcq[c := kcq[c] + [rq]];
      doms := doms[d := doms[d].(kcq := kcq)];
      doms := doms[d := doms[d].(bits := doms[d].bits + {c})];
    }

    /** kyber_finish_request: the token goes back. */
    method FinishRequest(d: nat)
      requires Ok() && d < NUM_DOMAINS && doms[d].used > 0
      modifies this`doms
      ensures Ok() && Snap() == Apply(old(Snap()), Done(d))
    {
      StepKeepsInv(Snap(), Done(d));
      doms := doms[d := doms[d].(free := doms[d].free + 1, used := doms[d].used - 1)];
    }

    /** kyber_flush_busy_kcqs. */
    method FlushBusyKcqs(d: nat)
      requires Ok() && d < NUM_DOMAINS
      modifies this`doms
      ensures doms == old(doms)[d := Flush(old(doms)[d], 0)]
    {
      var c := 0;
      while c < |doms[d].kcq|
        invariant |doms| == NUM_DOMAINS && c <= |doms[d].kcq|
        invariant doms == old(doms)[d := doms[d]]
        invariant Flush(doms[d], c) == Flush(old(doms)[d], 0)
        decreases |doms[d].kcq| - c
      {
        if c in doms[d].bits {
          var m := doms[d];
          doms := doms[d := m.(rqs := m.rqs + m.kcq[c], kcq := m.kcq[c := []], bits := m.bits - {c})];
        }
        c := c + 1;
      }
    }

    /** kyber_dispatch_cur_domain: a request exactly when the domain is ready. */
    method DispatchCurDomain() returns (got: bool, rq: nat)
      requires Ok()
      modifies this`doms, this`batching
      ensures got == Ready(old(doms)[curDomain])
      ensures !got ==> doms == old(doms) && batching == old(batching)
      ensures got ==> AtHand(old(doms)[curDomain]).rqs != [] && rq == AtHand(old(doms)[curDomain]).rqs[0]
      ensures got ==> doms == old(doms)[curDomain := Take(old(doms)[curDomain])] && batching == old(batching) + 1
    {
      var d := curDomain;
      got, rq := false, 0;
      if doms[d].rqs != [] || doms[d].bits != {} {
        if doms[d].free > 0 {
          ReadyHasRequest(doms[d]);
          FlushMovesAll(doms[d], 0);
          if doms[d].rqs == [] {
            FlushBusyKcqs(d);
          }
          var m := doms[d];
          got, rq := true, m.rqs[0];
          batching := batching + 1;
          doms := doms[d := m.(rqs := m.rqs[1..], free := m.free - 1, used := m.used + 1)];
        }
      }
    }

    /** kyber_dispatch_request. */
    method DispatchRequest() returns (got: bool, rq: nat)
      requires Ok()
      modifies this
      ensures Ok() && Snap() == Dispatch(old(Snap()))
      ensures got == (Served(old(Snap())) != -1)
      ensures got ==> AtHand(old(doms)[curDomain]).rqs != [] && rq == AtHand(old(doms)[curDomain]).rqs[0]
    {
      StepKeepsInv(Snap(), DispatchOne);
      if batching < Batch(curDomain) {
        got, rq := DispatchCurDomain();
        if got {
          return;
        }
      }
      batching := 0;
      got, rq := NextBatch();
    }

    /** The loop that starts another batch, at most once round the domains. */
    method NextBatch() returns (got: bool, rq: nat)
      requires Ok() && batching == 0
      modifies this
      ensures got == (Search(old(doms), old(curDomain), NUM_DOMAINS) != -1)
      ensures !got ==> Snap() == old(Snap())
      ensures got ==> curDomain == Search(old(doms), old(curDomain), NUM_DOMAINS)
      ensures got ==> AtHand(old(doms)[curDomain]).rqs != [] && rq == AtHand(old(doms)[curDomain]).rqs[0]
      ensures got ==> doms == old(doms)[curDomain := Take(old(doms)[curDomain])] && batching == 1
    {
      got, rq := false, 0;
      var i := 0;
      while i < NUM_DOMAINS
        invariant i <= NUM_DOMAINS && !got && doms == old(doms) && batching == 0 && Ok()
        invariant Search(doms, curDomain, NUM_DOMAINS - i) == Search(doms, old(curDomain), NUM_DOMAINS)
        invariant curDomain == Turns(old(curDomain), i)
      {
        curDomain := if curDomain == NUM_DOMAINS - 1 then 0 else curDomain + 1;
        got, rq := DispatchCurDomain();
        if got {
          return;
        }
        i := i + 1;
      }
      OnceRound(old(curDomain));
    }
  }
}
