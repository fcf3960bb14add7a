/** The service card: the title with the search query highlighted, and the
    card's images. */
module ServiceCard {
  import opened Common

  function Concat(parts: seq<string>): string {
    if parts == [] then "" else parts[0] + Concat(parts[1..])
  }

  lemma {:induction false} ConcatAppend(a: seq<string>, b: seq<string>)
    ensures Concat(a + b) == Concat(a) + Concat(b)
  {
    if a != [] {
      assert (a + b)[1..] == a[1..] + b;
      ConcatAppend(a[1..], b);
    } else {
      assert a + b == b;
    }
  }

  lemma ConcatPair(a: string, b: string, rest: seq<string>)
    ensures Concat([a, b] + rest) == a + b + Concat(rest)
  {
    ConcatAppend([a, b], rest);
    assert Concat([a, b]) == a + (b + Concat([]));
  }

  lemma ConcatSingle(a: string, parts: seq<string>)
    requires parts == [a]
    ensures Concat(parts) == a
  {
    assert Concat([a]) == a + Concat([]);
  }

  /** A piece, a match and the pieces after them join back to the text
      from the piece on. */
  lemma JoinStep(s: string, i: nat, j: nat, k: nat, rest: seq<string>, parts: seq<string>)
    requires i <= j <= k <= |s| && Concat(rest) == s[k..]
    requires parts == [s[i..j], s[j..k]] + rest
    ensures Concat(parts) == s[i..]
  {
    ConcatPair(s[i..j], s[j..k], rest);
    assert s[i..] == s[i..j] + s[j..k] + s[k..];
  }

  /** No occurrence of `lq` starts in `[from, to)` of `lt`, so the slice
      `lt[from..to]` does not contain it. */
  lemma NoMatchInSlice(lt: string, lq: string, from: nat, to: nat)
    requires lq != "" && from <= to <= |lt|
    requires forall k: nat :: from <= k < to ==> !OccursAt(lt, lq, k)
    ensures !Contains(lt[from..to], lq)
  {
    if Contains(lt[from..to], lq) {
      var m: nat :| m <= to - from && OccursAt(lt[from..to], lq, m);
      var piece := lt[from..to];
      assert piece[m..m + |lq|] == lq;
      forall j | 0 <= j < |lq|
        ensures lt[from + m..from + m + |lq|][j] == lq[j]
      {
        assert piece[m..m + |lq|][j] == lq[j];
        assert piece[m + j] == lt[from + m + j];
      }
      assert lt[from + m..from + m + |lq|] == lq;
      assert OccursAt(lt, lq, from + m);
    }
  }

  /** The first position at or after `from` where `lq` occurs in `lt`: on the
      lower-cased text and query, where the global case-insensitive regular
      expression matches next. `NextMatchIsFirst` states which position it
      is. */
  function NextMatch(lt: string, lq: string, from: nat): (r: Option<nat>)
    requires from <= |lt|
    ensures r.Some? ==> from <= r.value && r.value + |lq| <= |lt|
    decreases |lt| - from
  {
    if OccursAt(lt, lq, from) then Some(from)
    else if from == |lt| then None
    else NextMatch(lt, lq, from + 1)
  }

  lemma {:induction false} NextMatchIsFirst(lt: string, lq: string, from: nat)
    requires from <= |lt|
    ensures var r := NextMatch(lt, lq, from);
      && (r.Some? ==> OccursAt(lt, lq, r.value))
      && (r.Some? ==> forall k: nat :: from <= k < r.value ==> !OccursAt(lt, lq, k))
      && (r.None? ==> forall k: nat :: from <= k ==> !OccursAt(lt, lq, k))
    decreases |lt| - from
  {
    if !OccursAt(lt, lq, from) && from < |lt| {
      NextMatchIsFirst(lt, lq, from + 1);
    }
  }

  /** A match is found from the start exactly when the text contains the
      query. */
  lemma NextMatchFindsContained(lt: string, lq: string)
    ensures NextMatch(lt, lq, 0).Some? <==> Contains(lt, lq)
  {
    NextMatchIsFirst(lt, lq, 0);
    if NextMatch(lt, lq, 0).Some? {
      assert OccursAt(lt, lq, NextMatch(lt, lq, 0).value);
    }
  }

  /** `text.split(new RegExp('(' + q + ')', 'ig'))` on `text[from..]`, where
      `lt` and `lq` are the text and the query lower-cased: the pieces
      between the matches, each match kept after the piece before it. */
  function SplitFrom(text: string, lt: string, lq: string, from: nat): seq<string>
    requires |lt| == |text| && lq != "" && from <= |text|
    decreases |text| - from
  {
    match NextMatch(lt, lq, from)
    case None => [text[from..]]
    case Some(k) => [text[from..k], text[k..k + |lq|]] + SplitFrom(text, lt, lq, k + |lq|)
  }

  /** The pieces are odd in number: pieces and matches alternate, starting
      and ending with a piece. */
  lemma {:induction false} SplitIsOdd(text: string, lt: string, lq: string, from: nat)
    requires |lt| == |text| && lq != "" && from <= |text|
    ensures |SplitFrom(text, lt, lq, from)| % 2 == 1
    decreases |text| - from
  {
    match NextMatch(lt, lq, from)
    case None =>
    case Some(k) =>
      SplitIsOdd(text, lt, lq, k + |lq|);
  }

  /** The pieces join back to the text. */
  lemma {:induction false} SplitJoins(text: string, lt: string, lq: string, from: nat)
    requires |lt| == |text| && lq != "" && from <= |text|
    ensures Concat(SplitFrom(text, lt, lq, from)) == text[from..]
    decreases |text| - from
  {
    match NextMatch(lt, lq, from)
    case None =>
      var parts := SplitFrom(text, lt, lq, from);
      assert parts == [text[from..]];
      ConcatSingle(text[from..], parts);
    case Some(k) =>
      var rest := SplitFrom(text, lt, lq, k + |lq|);
      var parts := SplitFrom(text, lt, lq, from);
      assert parts == [text[from..k], text[k..k + |lq|]] + rest;
      SplitJoins(text, lt, lq, k + |lq|);
      JoinStep(text, from, k, k + |lq|, rest, parts);
  }

  /** The odd-numbered pieces are `lq` and no even-numbered piece contains
      it. */
  predicate Alternates(parts: seq<string>, lq: string) {
    forall i :: 0 <= i < |parts| ==>
      (i % 2 == 1 ==> parts[i] == lq) && (i % 2 == 0 ==> !Contains(parts[i], lq))
  }

  /** On the lower-cased text itself, the odd-numbered pieces are the query
      and no even-numbered piece contains it. That each match is the
      leftmost one is `NextMatchIsFirst`. */
  lemma {:induction false} LowerPieces(lt: string, lq: string, from: nat)
    requires lq != "" && from <= |lt|
    ensures Alternates(SplitFrom(lt, lt, lq, from), lq)
    decreases |lt| - from
  {
    var parts := SplitFrom(lt, lt, lq, from);
    NextMatchIsFirst(lt, lq, from);
    match NextMatch(lt, lq, from)
    case None =>
      assert parts == [lt[from..]];
      assert !Contains(lt[from..], lq) by {
        NoMatchInSlice(lt, lq, from, |lt|);
        assert lt[from..|lt|] == lt[from..];
      }
    case Some(k) =>
      var rest := SplitFrom(lt, lt, lq, k + |lq|);
      assert parts == [lt[from..k], lt[k..k + |lq|]] + rest;
      NoMatchInSlice(lt, lq, from, k);
      LowerPieces(lt, lq, k + |lq|);
      AlternatesStep(lt[from..k], lt[k..k + |lq|], rest, parts, lq);
  }

  /** A piece without the query and the query, in front of alternating
      pieces, alternate. */
  lemma AlternatesStep(a: string, b: string, rest: seq<string>, parts: seq<string>, lq: string)
    requires parts == [a, b] + rest && !Contains(a, lq) && b == lq && Alternates(rest, lq)
    ensures Alternates(parts, lq)
  {
    forall i | 2 <= i < |parts|
      ensures (i % 2 == 1 ==> parts[i] == lq) && (i % 2 == 0 ==> !Contains(parts[i], lq))
    {
      var j := i - 2;
      assert parts[i] == rest[j];
      assert i % 2 == j % 2;
    }
  }

  /** Each piece of `parts` lower-cases to the piece of `lparts` at the same
      position. */
  predicate LowersTo(parts: seq<string>, lparts: seq<string>) {
    |parts| == |lparts| && forall n :: 0 <= n < |parts| ==> Lower(parts[n]) == lparts[n]
  }

  /** Every slice of `text` lower-cases to the same slice of `lt`. */
  predicate SlicesLowerTo(text: string, lt: string) {
    |text| == |lt| && forall i, j {:trigger lt[i..j]} :: 0 <= i <= j <= |text| ==> Lower(text[i..j]) == lt[i..j]
  }

  lemma SlicesOfLower(text: string)
    ensures SlicesLowerTo(text, Lower(text))
  {
    forall i, j | 0 <= i <= j <= |text|
      ensures Lower(text[i..j]) == Lower(text)[i..j]
    {
      LowerSlice(text, i, j);
    }
  }

  /** Splitting commutes with lower-casing: the pieces of the text,
      lower-cased, are the pieces of the lower-cased text. */
  lemma {:induction false} SplitCommutesWithLower(text: string, lt: string, lq: string, from: nat)
    requires SlicesLowerTo(text, lt) && lq != "" && from <= |text|
    ensures LowersTo(SplitFrom(text, lt, lq, from), SplitFrom(lt, lt, lq, from))
    decreases |text| - from
  {
    match NextMatch(lt, lq, from)
    case None =>
      assert SplitFrom(text, lt, lq, from) == [text[from..]];
      assert SplitFrom(lt, lt, lq, from) == [lt[from..]];
      assert Lower(text[from..|text|]) == lt[from..|text|];
      assert text[from..|text|] == text[from..];
      assert lt[from..|text|] == lt[from..];
    case Some(k) =>
      var rest := SplitFrom(text, lt, lq, k + |lq|);
      var lrest := SplitFrom(lt, lt, lq, k + |lq|);
      var parts := SplitFrom(text, lt, lq, from);
      var lparts := SplitFrom(lt, lt, lq, from);
      assert parts == [text[from..k], text[k..k + |lq|]] + rest;
      assert lparts == [lt[from..k], lt[k..k + |lq|]] + lrest;
      SplitCommutesWithLower(text, lt, lq, k + |lq|);
      assert Lower(text[from..k]) == lt[from..k];
      assert Lower(text[k..k + |lq|]) == lt[k..k + |lq|];
      LowerStep(text[from..k], text[k..k + |lq|], lt[from..k], lt[k..k + |lq|], rest, lrest, parts, lparts);
  }

  /** Two pieces that lower-case to `la` and `lb`, in front of pieces that
      lower-case to `lrest`. */
  lemma LowerStep(a: string, b: string, la: string, lb: string, rest: seq<string>, lrest: seq<string>,
                  parts: seq<string>, lparts: seq<string>)
    requires Lower(a) == la && Lower(b) == lb && LowersTo(rest, lrest)
    requires parts == [a, b] + rest && lparts == [la, lb] + lrest
    ensures LowersTo(parts, lparts)
  {
    forall n | 2 <= n < |parts|
      ensures Lower(parts[n]) == lparts[n]
    {
      assert parts[n] == rest[n - 2] && lparts[n] == lrest[n - 2];
    }
  }

  /** The pieces of the whole text. */
  function Split(text: string, q: string): seq<string>
    requires q != ""
  {
    SplitFrom(text, Lower(text), Lower(q), 0)
  }

  datatype Fragment = Fragment(text: string, marked: bool)

  function Texts(fs: seq<Fragment>): (r: seq<string>)
    ensures |r| == |fs| && forall i :: 0 <= i < |fs| ==> r[i] == fs[i].text
  {
    seq(|fs|, i requires 0 <= i < |fs| => fs[i].text)
  }

  /** `parts.map(...)`: each piece, marked when it lower-cases to `lq`. */
  function Mark(parts: seq<string>, lq: string): (r: seq<Fragment>)
    ensures Texts(r) == parts
    ensures forall i :: 0 <= i < |r| ==> r[i].marked == (Lower(parts[i]) == lq)
  {
    var r := seq(|parts|, i requires 0 <= i < |parts| => Fragment(parts[i], Lower(parts[i]) == lq));
    assert Texts(r) == parts;
    r
  }

  /** `Highlight`: without a query, or when the text does not contain it
      ignoring case, the text unchanged; otherwise the split pieces, a piece
      marked when it equals the query ignoring case. */
  function Highlight(text: string, query: Option<string>): (r: seq<Fragment>)
    ensures !Truthy(query) || !ContainsIgnoringCase(text, query.value) ==> r == [Fragment(text, false)]
    ensures Truthy(query) && ContainsIgnoringCase(text, query.value) ==> Texts(r) == Split(text, query.value)
    ensures Concat(Texts(r)) == text
    ensures Truthy(query) ==> forall i :: 0 <= i < |r| ==> (r[i].marked <==> Lower(r[i].text) == Lower(query.value))
  {
    if !Truthy(query) || !ContainsIgnoringCase(text, query.value) then
      assert Concat([text]) == text + Concat([]);
      assert Texts([Fragment(text, false)]) == [text];
      NotEqualWhenNotContained(text, query);
      [Fragment(text, false)]
    else
      SplitJoins(text, Lower(text), Lower(query.value), 0);
      assert text[0..] == text;
      Mark(Split(text, query.value), Lower(query.value))
  }

  /** A text equal to the query, ignoring case, contains it. */
  lemma NotEqualWhenNotContained(text: string, query: Option<string>)
    ensures Truthy(query) && !ContainsIgnoringCase(text, query.value) ==> Lower(text) != Lower(query.value)
  {
    if Truthy(query) && Lower(text) == Lower(query.value) {
      assert OccursAt(Lower(text), Lower(query.value), 0);
    }
  }

  /** With a query the text contains, there is more than one piece, and
      exactly the odd-numbered pieces, the matches, are marked. */
  lemma {:induction false} MarkedAreTheMatches(text: string, q: string)
    requires q != "" && ContainsIgnoringCase(text, q)
    ensures |Highlight(text, Some(q))| > 1
    ensures forall i :: 0 <= i < |Highlight(text, Some(q))| ==> (Highlight(text, Some(q))[i].marked <==> i % 2 == 1)
  {
    HighlightOfContained(text, q);
    var lt, lq := Lower(text), Lower(q);
    assert |SplitFrom(text, lt, lq, 0)| > 1 by {
      SplitHasMatch(text, lt, lq);
    }
    SlicesOfLower(text);
    SplitCommutesWithLower(text, lt, lq, 0);
    OddPiecesAreMatches(lt, lq);
    MarkAlternates(SplitFrom(text, lt, lq, 0), SplitFrom(lt, lt, lq, 0), lq);
  }

  /** For a query the text contains, the fragments are the marked pieces of
      the split. */
  lemma HighlightOfContained(text: string, q: string)
    requires q != "" && ContainsIgnoringCase(text, q)
    ensures Highlight(text, Some(q)) == Mark(SplitFrom(text, Lower(text), Lower(q), 0), Lower(q))
  {
  }

  /** When the lower-cased text contains the query, the split has a match and
      so more than one piece. */
  lemma SplitHasMatch(text: string, lt: string, lq: string)
    requires |lt| == |text| && lq != "" && Contains(lt, lq)
    ensures |SplitFrom(text, lt, lq, 0)| > 1
  {
    NextMatchFindsContained(lt, lq);
    var k := NextMatch(lt, lq, 0).value;
    assert SplitFrom(text, lt, lq, 0) == [text[0..k], text[k..k + |lq|]] + SplitFrom(text, lt, lq, k + |lq|);
  }

  /** Marking pieces whose lower-cased forms are the query exactly at the odd
      positions marks exactly the odd positions. */
  lemma MarkAlternates(parts: seq<string>, lparts: seq<string>, lq: string)
    requires LowersTo(parts, lparts)
    requires forall i :: 0 <= i < |lparts| ==> (lparts[i] == lq <==> i % 2 == 1)
    ensures forall i :: 0 <= i < |Mark(parts, lq)| ==> (Mark(parts, lq)[i].marked <==> i % 2 == 1)
  {
  }

  /** A piece of the lower-cased text is the query exactly at the odd
      positions. */
  lemma OddPiecesAreMatches(lt: string, lq: string)
    requires lq != ""
    ensures forall i :: 0 <= i < |SplitFrom(lt, lt, lq, 0)| ==> (SplitFrom(lt, lt, lq, 0)[i] == lq <==> i % 2 == 1)
  {
    var lparts := SplitFrom(lt, lt, lq, 0);
    LowerPieces(lt, lq, 0);
    forall i | 0 <= i < |lparts| && i % 2 == 0 && lparts[i] == lq
      ensures false
    {
      assert OccursAt(lparts[i], lq, 0);
    }
  }

  /** `service.images[0] || '/placeholder-image.jpg'`. */
  function CardImage(images: seq<string>): (r: string)
    ensures |images| > 0 && images[0] != "" ==> r == images[0]
    ensures |images| == 0 || images[0] == "" ==> r == "/placeholder-image.jpg"
  {
    if |images| > 0 && images[0] != "" then images[0] else "/placeholder-image.jpg"
  }

  /** `steward.image || '/default-avatar.png'`. */
  function StewardAvatar(image: Option<string>): (r: string)
    ensures Truthy(image) ==> r == image.value
    ensures !Truthy(image) ==> r == "/default-avatar.png"
  {
    OrElse(image, "/default-avatar.png")
  }
}
