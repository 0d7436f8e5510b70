/** What a client's waits on its socket yield, and scripts of such receipts. */
module Receipts {
  import opened Wire

  /**
   What one wait yields: silence, an error, or a datagram with its source. `env` is whatever else the
   handling of the datagram finds outside the program.
   */
  datatype Receipt<+E> = Timeout | Fault | Msg(from: Addr, msg: Message, env: E)

  function Messages<E>(p: seq<Receipt<E>>): nat {
    if p == [] then 0 else Messages(p[..|p| - 1]) + if p[|p| - 1].Msg? then 1 else 0
  }

  /** The first `n` receipts of a script that is followed by silence. */
  function Stream<E>(script: seq<Receipt<E>>, n: nat): (p: seq<Receipt<E>>)
    ensures |p| == n
    ensures forall i :: 0 <= i < n ==> p[i] == At(script, i)
  {
    seq(n, i requires 0 <= i < n => At(script, i))
  }

  function At<E>(script: seq<Receipt<E>>, i: nat): Receipt<E> {
    if i < |script| then script[i] else Timeout
  }

  lemma StreamExtends<E>(script: seq<Receipt<E>>, n: nat)
    ensures Stream(script, n + 1)[..n] == Stream(script, n)
    ensures Stream(script, n + 1) == Stream(script, n) + [At(script, n)]
  {
  }

  lemma {:induction false} MessagesOfStream<E>(script: seq<Receipt<E>>, n: nat)
    ensures Messages(Stream(script, n)) <= Messages(script)
  {
    if n <= |script| {
      assert Stream(script, n) == script[..n];
      MessagesOfPrefix(script, n);
    } else {
      MessagesOfStream(script, n - 1);
      StreamExtends(script, n - 1);
    }
  }

  lemma {:induction false} MessagesOfPrefix<E>(p: seq<Receipt<E>>, n: nat)
    requires n <= |p|
    ensures Messages(p[..n]) <= Messages(p)
  {
    if n == |p| {
      assert p[..n] == p;
    } else {
      MessagesOfPrefix(p[..|p| - 1], n);
      assert p[..|p| - 1][..n] == p[..n];
    }
  }
}
