/** Absent values, raised exceptions, and the vocabulary of sequences that the statements use. */
module Wrappers {

  /** A reference that may be null. */
  datatype Option<+T> = None | Some(value: T)

  /** The outcome of code that may throw. */
  datatype Result<+T> = Ok(value: T) | Err(error: string)

  /** C# string concatenation treats null as the empty string. */
  function Str(s: Option<string>): string {
    match s
    case None => ""
    case Some(t) => t
  }

  /** `text.Contains(part)`. */
  predicate Contains(text: string, part: string) {
    exists i :: 0 <= i <= |text| && part <= text[i..]
  }

  /** The text is made of something, the part and something. */
  ghost predicate Within(part: string, text: string) {
    exists before, after :: text == before + part + after
  }

  lemma ContainsExactlyWhenWithin(text: string, part: string)
    ensures Contains(text, part) <==> Within(part, text)
  {
    if Contains(text, part) {
      var i :| 0 <= i <= |text| && part <= text[i..];
      assert text == text[..i] + part + text[i + |part|..];
    }
    if Within(part, text) {
      var before, after :| text == before + part + after;
      assert part <= text[|before|..];
    }
  }

  // ----- Elements chosen by a property -----

  /** The positions of the elements that satisfy `p`. */
  function Positions<T>(s: seq<T>, p: T -> bool): (ks: seq<nat>)
    ensures forall j :: 0 <= j < |ks| ==> ks[j] < |s| && p(s[ks[j]])
  {
    if s == [] then []
    else
      var n := |s| - 1;
      Positions(s[..n], p) + if p(s[n]) then [n] else []
  }

  /** They are in order, and no such element is left out. */
  lemma {:induction false} PositionsAreAll<T>(s: seq<T>, p: T -> bool)
    ensures var ks := Positions(s, p);
      && (forall i, j :: 0 <= i < j < |ks| ==> ks[i] < ks[j])
      && (forall k :: 0 <= k < |s| && p(s[k]) ==> k in ks)
  {
    if s == [] {
    } else {
      var n := |s| - 1;
      PositionsAreAll(s[..n], p);
      var front, ks := Positions(s[..n], p), Positions(s, p);
      forall k | 0 <= k < |s| && p(s[k]) ensures k in ks {
        if k < n {
          assert s[..n][k] == s[k] && k in front;
        } else {
          assert ks[|front|] == n;
        }
      }
    }
  }

  lemma PositionsSnoc<T>(s: seq<T>, x: T, p: T -> bool)
    ensures Positions(s + [x], p) == Positions(s, p) + if p(x) then [|s|] else []
  {
    assert (s + [x])[..|s|] == s;
  }

  /** The elements that satisfy `p`, in order. */
  function Where<T>(s: seq<T>, p: T -> bool): (r: seq<T>)
    ensures |r| == |Positions(s, p)| && forall j :: 0 <= j < |r| ==> r[j] == s[Positions(s, p)[j]] && p(r[j])
  {
    var ks := Positions(s, p);
    seq(|ks|, j requires 0 <= j < |ks| => s[ks[j]])
  }

  lemma WhereSnoc<T>(s: seq<T>, x: T, p: T -> bool)
    ensures Where(s + [x], p) == Where(s, p) + if p(x) then [x] else []
  {
    PositionsSnoc(s, x, p);
  }

  lemma WhereNone<T>(p: T -> bool)
    ensures Where([], p) == []
  {
  }

  // ----- Joining -----

  function Concat<T>(parts: seq<seq<T>>): seq<T> {
    if parts == [] then [] else Concat(parts[..|parts| - 1]) + parts[|parts| - 1]
  }

  lemma ConcatSnoc<T>(parts: seq<seq<T>>, p: seq<T>)
    ensures Concat(parts + [p]) == Concat(parts) + p
  {
    assert (parts + [p])[..|parts|] == parts;
  }
}
