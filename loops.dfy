/** Python `for` loops that append to a list inside a `try` block: the loop
    stops at the first iteration that raises, and what was appended before
    stays appended. */
module Loops {

  /** What such a loop leaves behind: the items appended, and whether an
      iteration raised. */
  datatype Run<T> = Run(out: seq<T>, raised: bool)

  /** Runs `body` on each element of `xs` in order, concatenating what each
      iteration appends, up to and including the first iteration that raises. */
  function Scan<A, B>(xs: seq<A>, body: A -> Run<B>): Run<B>
  {
    if xs == [] then Run([], false)
    else
      var first := body(xs[0]);
      if first.raised then first
      else
        var rest := Scan(xs[1..], body);
        Run(first.out + rest.out, rest.raised)
  }

  /** Looping over `xs + ys` is looping over `xs` and, unless that raised,
      then over `ys`. */
  lemma {:induction false} ScanAppend<A, B>(xs: seq<A>, ys: seq<A>, body: A -> Run<B>)
    ensures Scan(xs + ys, body) ==
      if Scan(xs, body).raised then Scan(xs, body)
      else Run(Scan(xs, body).out + Scan(ys, body).out, Scan(ys, body).raised)
  {
    if xs == [] {
      assert xs + ys == ys;
    } else {
      assert (xs + ys)[0] == xs[0];
      assert (xs + ys)[1..] == xs[1..] + ys;
      ScanAppend(xs[1..], ys, body);
    }
  }

  /** One more iteration at the end of the loop. */
  lemma ScanSnoc<A, B>(xs: seq<A>, x: A, body: A -> Run<B>)
    ensures Scan(xs + [x], body) ==
      if Scan(xs, body).raised then Scan(xs, body)
      else Run(Scan(xs, body).out + body(x).out, body(x).raised)
  {
    ScanAppend(xs, [x], body);
    assert [x][1..] == [];
  }

  /** Once an iteration has raised, the rest of the elements are never visited. */
  lemma ScanStopsAtRaise<A, B>(xs: seq<A>, k: nat, body: A -> Run<B>)
    requires k <= |xs| && Scan(xs[..k], body).raised
    ensures Scan(xs, body) == Scan(xs[..k], body)
  {
    ScanAppend(xs[..k], xs[k..], body);
    assert xs[..k] + xs[k..] == xs;
  }

  /** One iteration of a loop that has not raised so far: it either extends
      the prefix run, or raises and ends the whole loop. */
  lemma ScanStep<A, B>(xs: seq<A>, i: nat, body: A -> Run<B>, acc: seq<B>)
    requires i < |xs| && Scan(xs[..i], body) == Run(acc, false)
    ensures !body(xs[i]).raised ==> Scan(xs[..i + 1], body) == Run(acc + body(xs[i]).out, false)
    ensures body(xs[i]).raised ==> Scan(xs, body) == Run(acc + body(xs[i]).out, true)
  {
    ScanPrefixStep(xs, i, body, acc);
    if body(xs[i]).raised {
      ScanStopsAtRaise(xs, i + 1, body);
    }
  }

  /** The loop over one more element of `xs`. */
  lemma ScanPrefixStep<A, B>(xs: seq<A>, i: nat, body: A -> Run<B>, acc: seq<B>)
    requires i < |xs| && Scan(xs[..i], body) == Run(acc, false)
    ensures Scan(xs[..i + 1], body) == Run(acc + body(xs[i]).out, body(xs[i]).raised)
  {
    var pre, x := xs[..i], xs[i];
    ScanSnoc(pre, x, body);
    assert xs[..i + 1] == pre + [x];
  }

  /** An iteration that appends exactly one item, or raises before appending. */
  predicate Single<B>(r: Run<B>) {
    r == Run([], true) || (|r.out| == 1 && !r.raised)
  }

  /** When every iteration appends one item or raises, the loop keeps one item
      per element of the longest prefix that does not raise, in order, and it
      raises exactly when it stops short of the end. */
  lemma {:induction false} ScanOfSingles<A, B>(xs: seq<A>, body: A -> Run<B>)
    requires forall i :: 0 <= i < |xs| ==> Single(body(xs[i]))
    ensures |Scan(xs, body).out| <= |xs|
    ensures Scan(xs, body).raised <==> |Scan(xs, body).out| < |xs|
    ensures forall i :: 0 <= i < |Scan(xs, body).out| ==>
              body(xs[i]) == Run([Scan(xs, body).out[i]], false)
    ensures Scan(xs, body).raised ==> body(xs[|Scan(xs, body).out|]) == Run([], true)
  {
    if xs != [] && !body(xs[0]).raised {
      var tail := xs[1..];
      assert forall i :: 0 <= i < |tail| ==> tail[i] == xs[i + 1];
      ScanOfSingles(tail, body);
      var r := Scan(xs, body);
      var first := body(xs[0]);
      assert r.out == first.out + Scan(tail, body).out;
      forall i | 0 <= i < |r.out|
        ensures body(xs[i]) == Run([r.out[i]], false)
      {
        if i > 0 {
          assert r.out[i] == Scan(tail, body).out[i - 1];
        }
      }
    }
  }

  /** `ScanOfSingles` at one position. */
  lemma ScanOfSinglesAt<A, B>(xs: seq<A>, body: A -> Run<B>, i: nat)
    requires forall j :: 0 <= j < |xs| ==> Single(body(xs[j]))
    requires i < |Scan(xs, body).out|
    ensures i < |xs| && body(xs[i]) == Run([Scan(xs, body).out[i]], false)
  {
    ScanOfSingles(xs, body);
  }

  /** `enumerate(xs, start)`. */
  function Enumerate<A>(xs: seq<A>, start: int): (r: seq<(int, A)>)
    ensures |r| == |xs|
    ensures forall i :: 0 <= i < |xs| ==> r[i] == (start + i, xs[i])
  {
    seq(|xs|, i requires 0 <= i < |xs| => (start + i, xs[i]))
  }
}
