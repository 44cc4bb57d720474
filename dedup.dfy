/**
 * Case-insensitive de-duplication keeping the first occurrence, as the
 * services write it with a `seen` set of lower-cased strings.
 */
module CaseInsensitive {
  import opened Text

  /** The lower-cased forms of some terms. */
  function Keys(xs: seq<string>): (r: seq<string>)
    ensures |r| == |xs|
  {
    if xs == [] then [] else [Lower(xs[0])] + Keys(xs[1..])
  }

  /** The set of lower-cased forms of some terms. */
  function KeySet(xs: seq<string>): set<string> {
    if xs == [] then {} else {Lower(xs[0])} + KeySet(xs[1..])
  }

  predicate Distinct(xs: seq<string>) {
    forall i, j :: 0 <= i < j < |xs| ==> xs[i] != xs[j]
  }

  /** The `seen`/`terms` loop as a function: keep an option unless its lower-case form has been seen. */
  function Dedupe(seen: set<string>, options: seq<string>): seq<string>
    decreases |options|
  {
    if options == [] then []
    else if Lower(options[0]) in seen then Dedupe(seen, options[1..])
    else [options[0]] + Dedupe(seen + {Lower(options[0])}, options[1..])
  }

  /** The `seen` loop: keep each item whose lower-case form is new. */
  method Collect(options: seq<string>) returns (terms: seq<string>)
    ensures terms == Dedupe({}, options)
  {
    var seen: set<string> := {};
    terms := [];
    var i := 0;
    while i < |options|
      invariant 0 <= i <= |options|
      invariant terms + Dedupe(seen, options[i..]) == Dedupe({}, options)
    {
      assert options[i..][1..] == options[i + 1..];
      var lowered := Lower(options[i]);
      if lowered in seen {
        i := i + 1;
        continue;
      }
      seen := seen + {lowered};
      terms := terms + [options[i]];
      i := i + 1;
    }
    assert options[i..] == [];
  }

  /** No two terms are equal ignoring case, and none was seen before. */
  lemma {:induction false} DedupeDistinct(seen: set<string>, options: seq<string>)
    ensures Distinct(Keys(Dedupe(seen, options)))
    ensures forall k :: k in Keys(Dedupe(seen, options)) ==> k !in seen
    decreases |options|
  {
    if options != [] {
      var x := options[0];
      if Lower(x) in seen {
        DedupeDistinct(seen, options[1..]);
      } else {
        DedupeDistinct(seen + {Lower(x)}, options[1..]);
      }
    }
  }

  /** Every term is one of the options, and every option's lower-case form is covered. */
  lemma {:induction false} DedupeCovers(seen: set<string>, options: seq<string>)
    ensures forall t :: t in Dedupe(seen, options) ==> t in options
    ensures forall o :: o in options ==> Lower(o) in seen || Lower(o) in Keys(Dedupe(seen, options))
    decreases |options|
  {
    if options != [] {
      var x := options[0];
      if Lower(x) in seen {
        DedupeCovers(seen, options[1..]);
      } else {
        DedupeCovers(seen + {Lower(x)}, options[1..]);
        KeysAppend([x], Dedupe(seen + {Lower(x)}, options[1..]));
      }
    }
  }

  lemma {:induction false} KeysAppend(a: seq<string>, b: seq<string>)
    ensures Keys(a + b) == Keys(a) + Keys(b)
    decreases |a|
  {
    if a == [] {
      assert a + b == b;
    } else {
      assert (a + b)[0] == a[0];
      assert (a + b)[1..] == a[1..] + b;
      KeysAppend(a[1..], b);
      calc {
        Keys(a + b);
        [Lower(a[0])] + Keys(a[1..] + b);
        [Lower(a[0])] + (Keys(a[1..]) + Keys(b));
        ([Lower(a[0])] + Keys(a[1..])) + Keys(b);
        Keys(a) + Keys(b);
      }
    }
  }

  /** Deduplicating a concatenation: the first part's terms, then the rest against what they have seen. */
  lemma {:induction false} DedupeAppend(seen: set<string>, a: seq<string>, b: seq<string>)
    ensures Dedupe(seen, a + b) == Dedupe(seen, a) + Dedupe(seen + KeySet(a), b)
    decreases |a|
  {
    if a == [] {
      assert seen + KeySet(a) == seen;
      assert a + b == b;
    } else {
      var x := a[0];
      assert (a + b)[1..] == a[1..] + b;
      if Lower(x) in seen {
        DedupeAppend(seen, a[1..], b);
        assert seen + KeySet(a) == seen + KeySet(a[1..]);
      } else {
        DedupeAppend(seen + {Lower(x)}, a[1..], b);
        assert seen + KeySet(a) == (seen + {Lower(x)}) + KeySet(a[1..]);
      }
    }
  }

}
