/**
  The bounded walk over a message's MIME structure (mailgw-go/internal/attach/walk.go).

  A node is what the parser meets: a multipart's parts end with the end of input or with a parse
  error, and a leaf's content can be read, or read but not decoded, or neither.  Header parsing is not modelled.
 */
module MimeWalk {
  import opened Options
  import Text

  const MAX_PARTS := 500
  const MAX_DEPTH := 20

  datatype Content = Content(md5: string, size: nat)

  datatype Node =
    | Multi(boundary: bool, children: seq<Node>, ends: bool)
    | Leaf(mediaType: string, disposition: string, filename: string, body: Body)

  /** What a leaf's bytes come to; only an attachment's are decoded. */
  datatype Body = Unread | Undecodable | Decoded(content: Content)

  datatype Part = Part(filename: string, mediaType: string, disposition: string, content: Content)

  datatype Error = Truncated | NoBoundary | BadPart | Unreadable | BadEncoding

  /** `inline` is Options.IncludeInline. */
  predicate IsAttachment(n: Node, inline: bool)
    requires n.Leaf?
  {
    Text.SameFold(n.disposition, "attachment") || n.filename != "" || (inline && !IsBodyPart(n.mediaType))
  }

  predicate IsBodyPart(mediaType: string) { Text.Lower(mediaType) in {"text/plain", "text/html"} }

  /** The nodes in document order. */
  function Pre(n: Node): (s: seq<Node>)
    ensures |s| > 0
    decreases n, 0
  {
    if n.Leaf? then [n] else [n] + PreAll(n.children)
  }

  function PreAll(ns: seq<Node>): seq<Node>
    decreases ns, 1
  {
    if ns == [] then [] else Pre(ns[0]) + PreAll(ns[1..])
  }

  /** What a leaf does to the walk. */
  datatype Taking = Takes(parts: seq<Part>) | Fails(err: Error)

  /** The attachment a leaf is, if it is one; its bytes have to be read in any case, and decoded in this one. */
  function Own(n: Node, inline: bool): Taking {
    if n.Multi? then Takes([])
    else if n.body.Unread? then Fails(Unreadable)
    else if !IsAttachment(n, inline) then Takes([])
    else if n.body.Undecodable? then Fails(BadEncoding)
    else Takes([Part(n.filename, n.mediaType, n.disposition, n.body.content)])
  }

  /** Own, with the option given. */
  type Classifier = Node -> Taking

  function Classify(inline: bool): Classifier { n => Own(n, inline) }

  ghost predicate Sound(own: Classifier) {
    forall n: Node :: n.Multi? ==> own(n) == Takes([])
  }

  function Got(n: Node, own: Classifier): seq<Part> { if own(n).Fails? then [] else own(n).parts }

  /** The attachments among some nodes. */
  function Collect(ns: seq<Node>, own: Classifier): seq<Part> {
    if ns == [] then [] else Got(ns[0], own) + Collect(ns[1..], own)
  }

  function Height(n: Node): nat
    decreases n, 0
  {
    if n.Leaf? || n.children == [] then 0 else 1 + HeightAll(n.children)
  }

  function HeightAll(ns: seq<Node>): nat
    decreases ns, 1
  {
    if ns == [] then 0 else var a, b := Height(ns[0]), HeightAll(ns[1..]); if a > b then a else b
  }

  predicate WellFormed(n: Node, own: Classifier)
    decreases n, 0
  {
    if n.Leaf? then own(n).Takes? else n.boundary && n.ends && AllWellFormed(n.children, own)
  }

  predicate AllWellFormed(ns: seq<Node>, own: Classifier)
    decreases ns, 1
  {
    ns == [] || (WellFormed(ns[0], own) && AllWellFormed(ns[1..], own))
  }

  // ---------------------------------------------------------------- the walk

  /** The count and the attachments so far, and the error that stopped the walk, if one did. */
  datatype Walked = Walked(count: nat, parts: seq<Part>, err: Option<Error>)

  function Walk(n: Node, own: Classifier, depth: nat, count: nat, parts: seq<Part>): Walked
    decreases n, 0
  {
    if depth > MAX_DEPTH || count >= MAX_PARTS then Walked(count, parts, Some(Truncated))
    else if n.Leaf? then
      match own(n)
      case Fails(err) => Walked(count + 1, parts, Some(err))
      case Takes(found) => Walked(count + 1, parts + found, None)
    else if !n.boundary then Walked(count + 1, parts, Some(NoBoundary))
    else
      var w := WalkAll(n.children, own, depth + 1, count + 1, parts);
      if w.err.None? && !n.ends then w.(err := Some(BadPart)) else w
  }

  function WalkAll(ns: seq<Node>, own: Classifier, depth: nat, count: nat, parts: seq<Part>): Walked
    decreases ns, 1
  {
    if ns == [] then Walked(count, parts, None)
    else
      var w := Walk(ns[0], own, depth, count, parts);
      if w.err.Some? then w
      else if w.count >= MAX_PARTS then w.(err := Some(Truncated))
      else WalkAll(ns[1..], own, depth, w.count, w.parts)
  }

  // ---------------------------------------------------------------- what it finds

  lemma Assoc<T>(a: seq<T>, b: seq<T>, c: seq<T>)
    ensures (a + b) + c == a + (b + c)
  {
  }

  lemma {:induction false} CollectCat(a: seq<Node>, b: seq<Node>, own: Classifier)
    ensures Collect(a + b, own) == Collect(a, own) + Collect(b, own)
  {
    if a == [] {
      assert a + b == b;
    } else {
      CollectCat(a[1..], b, own);
      assert (a + b)[1..] == a[1..] + b;
      Assoc(Got(a[0], own), Collect(a[1..], own), Collect(b, own));
    }
  }

  /** The walk from one state to another entered the first nodes of `ns`, and took what they hold. */
  ghost predicate Took(ns: seq<Node>, own: Classifier, count: nat, parts: seq<Part>, w: Walked) {
    count <= w.count <= count + |ns| && w.parts == parts + Collect(ns[..w.count - count], own)
  }

  lemma TookNothing(ns: seq<Node>, own: Classifier, count: nat, parts: seq<Part>, w: Walked)
    requires w.count == count && w.parts == parts
    ensures Took(ns, own, count, parts, w)
  {
  }

  lemma TookFirst(ns: seq<Node>, more: seq<Node>, own: Classifier, count: nat, parts: seq<Part>, w: Walked)
    requires Took(ns, own, count, parts, w)
    ensures Took(ns + more, own, count, parts, w)
  {
    assert (ns + more)[..w.count - count] == ns[..w.count - count];
  }

  lemma TookThen(ns: seq<Node>, more: seq<Node>, own: Classifier, count: nat, parts: seq<Part>, v: Walked, w: Walked)
    requires Took(ns, own, count, parts, v) && v.count == count + |ns| && Took(more, own, v.count, v.parts, w)
    ensures Took(ns + more, own, count, parts, w)
  {
    var k := w.count - v.count;
    assert ns[..|ns|] == ns && (ns + more)[..w.count - count] == ns + more[..k];
    CollectCat(ns, more[..k], own);
  }

  /** At every moment, and however the walk ends, what it has found is exactly the attachments among the
      nodes it has entered, which are the first ones in document order. */
  lemma {:induction false} WalkTakesInOrder(n: Node, own: Classifier, depth: nat, count: nat, parts: seq<Part>)
    requires Sound(own)
    ensures var w := Walk(n, own, depth, count, parts);
      Took(Pre(n), own, count, parts, w) && (w.err.None? ==> w.count == count + |Pre(n)|)
    decreases n, 0
  {
    var w := Walk(n, own, depth, count, parts);
    if depth > MAX_DEPTH || count >= MAX_PARTS {
      TookNothing(Pre(n), own, count, parts, w);
    } else {
      if n.Leaf? {
        EnterLeaf(n, own, depth, count, parts);
      } else if !n.boundary {
        var entered := EnterMulti(n, own, count, parts);
        TookFirst([n], PreAll(n.children), own, count, parts, entered);
      } else {
        var entered := EnterMulti(n, own, count, parts);
        WalkAllTakesInOrder(n.children, own, depth + 1, count + 1, parts);
        TookThen([n], PreAll(n.children), own, count, parts, entered, w);
      }
    }
  }

  /** A node by itself. */
  lemma TookOne(n: Node, own: Classifier, count: nat, parts: seq<Part>, w: Walked)
    requires w.count == count + 1 && w.parts == parts + Got(n, own)
    ensures Took([n], own, count, parts, w)
  {
    assert [n][1..] == [] && [n][..1] == [n];
    assert Collect([n], own) == Got(n, own);
  }

  lemma EnterMulti(n: Node, own: Classifier, count: nat, parts: seq<Part>) returns (entered: Walked)
    requires own(n) == Takes([])
    ensures entered == Walked(count + 1, parts, None) && Took([n], own, count, parts, entered)
  {
    entered := Walked(count + 1, parts, None);
    assert parts + [] == parts;
    TookOne(n, own, count, parts, entered);
  }

  lemma EnterLeaf(n: Node, own: Classifier, depth: nat, count: nat, parts: seq<Part>)
    requires n.Leaf? && depth <= MAX_DEPTH && count < MAX_PARTS
    ensures var w := Walk(n, own, depth, count, parts);
      Took(Pre(n), own, count, parts, w) && (w.err.None? ==> w.count == count + |Pre(n)|)
  {
    assert Pre(n) == [n] && parts + [] == parts;
    TookOne(n, own, count, parts, Walk(n, own, depth, count, parts));
  }

  lemma {:induction false} WalkAllTakesInOrder(ns: seq<Node>, own: Classifier, depth: nat, count: nat, parts: seq<Part>)
    requires Sound(own)
    ensures var w := WalkAll(ns, own, depth, count, parts);
      Took(PreAll(ns), own, count, parts, w) && (w.err.None? ==> w.count == count + |PreAll(ns)|)
    decreases ns, 1
  {
    if ns != [] {
      var v := Walk(ns[0], own, depth, count, parts);
      WalkTakesInOrder(ns[0], own, depth, count, parts);
      TookFirst(Pre(ns[0]), PreAll(ns[1..]), own, count, parts, v);
      if v.err.None? && v.count < MAX_PARTS {
        WalkAllTakesInOrder(ns[1..], own, depth, v.count, v.parts);
        TookThen(Pre(ns[0]), PreAll(ns[1..]), own, count, parts, v, WalkAll(ns, own, depth, count, parts));
      }
    }
  }

  // ---------------------------------------------------------------- when it succeeds

  /** The most nodes a walk may have counted when it returns from `n` without an error. */
  function Cap(n: Node): nat { if n.Multi? && n.children != [] then MAX_PARTS - 1 else MAX_PARTS }

  lemma {:induction false} WalkSucceeds(n: Node, own: Classifier, depth: nat, count: nat, parts: seq<Part>)
    requires Sound(own)
    ensures Walk(n, own, depth, count, parts).err.None? <==>
              WellFormed(n, own) && depth + Height(n) <= MAX_DEPTH && count + |Pre(n)| <= Cap(n)
    decreases n, 0
  {
    if n.Multi? && n.boundary && depth <= MAX_DEPTH && count < MAX_PARTS {
      WalkAllSucceeds(n.children, own, depth + 1, count + 1, parts);
    }
  }

  lemma {:induction false} WalkAllSucceeds(ns: seq<Node>, own: Classifier, depth: nat, count: nat, parts: seq<Part>)
    requires Sound(own)
    ensures WalkAll(ns, own, depth, count, parts).err.None? <==>
              AllWellFormed(ns, own) &&
              (ns != [] ==> depth + HeightAll(ns) <= MAX_DEPTH && count + |PreAll(ns)| < MAX_PARTS)
    decreases ns, 1
  {
    if ns != [] {
      var w := Walk(ns[0], own, depth, count, parts);
      WalkSucceeds(ns[0], own, depth, count, parts);
      WalkTakesInOrder(ns[0], own, depth, count, parts);
      if w.err.None? && w.count < MAX_PARTS { WalkAllSucceeds(ns[1..], own, depth, w.count, w.parts); }
    }
  }

  lemma {:induction false} WalkIsBounded(n: Node, own: Classifier, depth: nat, count: nat, parts: seq<Part>)
    requires count <= MAX_PARTS
    ensures Walk(n, own, depth, count, parts).count <= MAX_PARTS
    decreases n, 0
  {
    if n.Multi? && count < MAX_PARTS { WalkAllIsBounded(n.children, own, depth + 1, count + 1, parts); }
  }

  lemma {:induction false} WalkAllIsBounded(ns: seq<Node>, own: Classifier, depth: nat, count: nat, parts: seq<Part>)
    requires count <= MAX_PARTS
    ensures WalkAll(ns, own, depth, count, parts).count <= MAX_PARTS
    decreases ns, 1
  {
    if ns != [] {
      WalkIsBounded(ns[0], own, depth, count, parts);
      var w := Walk(ns[0], own, depth, count, parts);
      WalkAllIsBounded(ns[1..], own, depth, w.count, w.parts);
    }
  }

  /** For every structure, however wide or deep: at most 500 parts are counted; there is no error exactly when
      it is well formed, at most 20 levels deep and under 500 nodes, and then the count is the node count and
      the parts are all the attachments in document order; otherwise they are the attachments among the first
      nodes, as many as were counted. */
  lemma MessageWalk(n: Node, inline: bool)
    ensures var w := Walk(n, Classify(inline), 0, 0, []);
      && w.count <= 500 && w.count <= |Pre(n)|
      && w.parts == Collect(Pre(n)[..w.count], Classify(inline))
      && w.parts <= Collect(Pre(n), Classify(inline))
      && (w.err.None? <==> WellFormed(n, Classify(inline)) && Height(n) <= 20 && |Pre(n)| < 500)
      && (w.err.None? ==> w.count == |Pre(n)| && w.parts == Collect(Pre(n), Classify(inline)))
  {
    Found(n, Classify(inline));
  }

  lemma CollectPrefix(all: seq<Node>, k: nat, own: Classifier)
    requires k <= |all|
    ensures Collect(all[..k], own) <= Collect(all, own) && (k == |all| ==> Collect(all[..k], own) == Collect(all, own))
  {
    CollectCat(all[..k], all[k..], own);
    assert all == all[..k] + all[k..];
    if k == |all| { assert all[..k] == all; }
  }

  /** What a walk from nothing has taken. */
  lemma TookFromNothing(all: seq<Node>, own: Classifier, w: Walked)
    requires Took(all, own, 0, [], w)
    ensures w.count <= |all| && w.parts == Collect(all[..w.count], own) && w.parts <= Collect(all, own)
    ensures w.count == |all| ==> w.parts == Collect(all, own)
  {
    CollectPrefix(all, w.count, own);
    assert [] + Collect(all[..w.count], own) == Collect(all[..w.count], own);
  }

  lemma Found(n: Node, own: Classifier)
    requires Sound(own)
    ensures var w := Walk(n, own, 0, 0, []);
      && w.count <= 500 && w.count <= |Pre(n)|
      && w.parts == Collect(Pre(n)[..w.count], own)
      && w.parts <= Collect(Pre(n), own)
      && (w.err.None? <==> WellFormed(n, own) && Height(n) <= 20 && |Pre(n)| < 500)
      && (w.err.None? ==> w.count == |Pre(n)| && w.parts == Collect(Pre(n), own))
  {
    WalkIsBounded(n, own, 0, 0, []);
    WalkTakesInOrder(n, own, 0, 0, []);
    TookFromNothing(Pre(n), own, Walk(n, own, 0, 0, []));
    WalkSucceeds(n, own, 0, 0, []);
    if n.Leaf? || n.children == [] { AloneIsOne(n); }
  }

  lemma AloneIsOne(n: Node)
    requires n.Leaf? || n.children == []
    ensures |Pre(n)| == 1
  {
  }

  // ---------------------------------------------------------------- which parts those are

  /** A leaf is an attachment if it says so, or if it names a file, or, when inline parts count, if it is not one of
      the message's own two text types; capitals do not matter. */
  ghost predicate SaysAttachment(n: Node, inline: bool)
    requires n.Leaf?
  {
    Text.Spells(n.disposition, "attachment") || n.filename != "" ||
    (inline && !Text.Spells(n.mediaType, "text/plain") && !Text.Spells(n.mediaType, "text/html"))
  }

  lemma IsText(mediaType: string)
    ensures IsBodyPart(mediaType) <==> Text.Spells(mediaType, "text/plain") || Text.Spells(mediaType, "text/html")
  {
    IsPlain(mediaType);
    IsHtml(mediaType);
  }

  lemma IsPlain(mediaType: string)
    ensures Text.Lower(mediaType) == "text/plain" <==> Text.Spells(mediaType, "text/plain")
  {
    Text.SmallIsSpelt(mediaType, "text/plain");
  }

  lemma IsHtml(mediaType: string)
    ensures Text.Lower(mediaType) == "text/html" <==> Text.Spells(mediaType, "text/html")
  {
    Text.SmallIsSpelt(mediaType, "text/html");
  }

  /** What becomes of a leaf: its bytes have to be readable in any case, and decodable if it is an attachment; then it
      is a part, under its own name, type and disposition, with the decoded content. */
  lemma LeafIsTaken(n: Node, inline: bool)
    requires n.Leaf?
    ensures var own := Classify(inline)(n);
      if n.body.Unread? then own == Fails(Unreadable)
      else if !SaysAttachment(n, inline) then own == Takes([])
      else if n.body.Undecodable? then own == Fails(BadEncoding)
      else own == Takes([Part(n.filename, n.mediaType, n.disposition, n.body.content)])
  {
    IsText(n.mediaType);
    Text.FoldIffSpells(n.disposition, "attachment");
  }

  ghost predicate IsPart(n: Node, inline: bool) { n.Leaf? && n.body.Decoded? && SaysAttachment(n, inline) }

  /** The parts are those of the attachments among the nodes, each once and in their order: the j-th is that of node
      `at[j]`. */
  ghost predicate PartsOf(ns: seq<Node>, inline: bool, parts: seq<Part>, at: seq<nat>) {
    |at| == |parts| &&
    (forall j :: 0 <= j < |at| ==>
       at[j] < |ns| && IsPart(ns[at[j]], inline) &&
       parts[j] == Part(ns[at[j]].filename, ns[at[j]].mediaType, ns[at[j]].disposition, ns[at[j]].body.content)) &&
    (forall i, j :: 0 <= i < j < |at| ==> at[i] < at[j]) &&
    (forall i :: 0 <= i < |ns| && IsPart(ns[i], inline) ==> i in at)
  }

  lemma GotIs(n: Node, inline: bool)
    ensures Got(n, Classify(inline)) ==
            if IsPart(n, inline) then [Part(n.filename, n.mediaType, n.disposition, n.body.content)] else []
  {
    if n.Leaf? { LeafIsTaken(n, inline); }
  }

  lemma PartsNext(ns: seq<Node>, n: Node, inline: bool, parts: seq<Part>, at: seq<nat>)
    requires PartsOf(ns, inline, parts, at) && IsPart(n, inline)
    ensures var part := Part(n.filename, n.mediaType, n.disposition, n.body.content);
      PartsOf(ns + [n], inline, parts + [part], at + [|ns|])
  {
    var at' := at + [|ns|];
    forall i | 0 <= i < |ns + [n]| && IsPart((ns + [n])[i], inline) ensures i in at' {
      if i == |ns| { assert at'[|at|] == i; } else { assert i in at; }
    }
  }

  lemma PartsSkip(ns: seq<Node>, n: Node, inline: bool, parts: seq<Part>, at: seq<nat>)
    requires PartsOf(ns, inline, parts, at) && !IsPart(n, inline)
    ensures PartsOf(ns + [n], inline, parts, at)
  {
  }

  lemma {:induction false} CollectIsParts(ns: seq<Node>, inline: bool) returns (at: seq<nat>)
    ensures PartsOf(ns, inline, Collect(ns, Classify(inline)), at)
    decreases |ns|
  {
    at := [];
    if ns != [] {
      var before, n := ns[..|ns| - 1], ns[|ns| - 1];
      at := CollectIsParts(before, inline);
      assert ns == before + [n];
      CollectCat(before, [n], Classify(inline));
      GotIs(n, inline);
      assert Collect([n], Classify(inline)) == Got(n, Classify(inline));
      if IsPart(n, inline) {
        PartsNext(before, n, inline, Collect(before, Classify(inline)), at);
        at := at + [|before|];
      } else {
        PartsSkip(before, n, inline, Collect(before, Classify(inline)), at);
      }
    }
  }

  /** Of a message that is walked through, exactly the attachments are reported, in document order; of one that is
      not, those among the nodes that were counted. */
  lemma MessageParts(n: Node, inline: bool) returns (at: seq<nat>)
    ensures var w := Walk(n, Classify(inline), 0, 0, []);
      w.count <= |Pre(n)| && PartsOf(Pre(n)[..w.count], inline, w.parts, at)
  {
    MessageWalk(n, inline);
    at := CollectIsParts(Pre(n)[..Walk(n, Classify(inline), 0, 0, []).count], inline);
  }

  // ---------------------------------------------------------------- what stops it

  ghost predicate OnlyLeavesFail(own: Classifier) {
    forall n: Node :: own(n).Fails? ==> n.Leaf? && (own(n).err.Unreadable? || own(n).err.BadEncoding?)
  }

  /** Why the walk ended: the count is exhausted or the structure is too deep; the node counted last is a multipart
      without a boundary, or a leaf that fails; or a multipart among those counted breaks off. */
  ghost predicate Explained(ns: seq<Node>, own: Classifier, count: nat, deep: bool, w: Walked) {
    count <= w.count <= count + |ns| &&
    match w.err
    case None => true
    case Some(Truncated) => w.count >= 500 || deep
    case Some(NoBoundary) =>
      w.count > count && var last := ns[w.count - count - 1]; last.Multi? && !last.boundary
    case Some(BadPart) => exists i :: 0 <= i < w.count - count && ns[i].Multi? && !ns[i].ends
    case Some(err) => w.count > count && own(ns[w.count - count - 1]) == Fails(err)
  }

  lemma ExplainedBefore(ns: seq<Node>, more: seq<Node>, own: Classifier, count: nat, deep: bool, deep': bool, w: Walked)
    requires Explained(ns, own, count, deep, w) && (deep ==> deep')
    ensures Explained(ns + more, own, count, deep', w)
  {
    forall i | 0 <= i < w.count - count ensures (ns + more)[i] == ns[i] { }
  }

  lemma ExplainedAfter(before: seq<Node>, ns: seq<Node>, own: Classifier, count: nat, deep: bool, deep': bool,
                       w: Walked)
    requires Explained(ns, own, count + |before|, deep, w) && (deep ==> deep')
    ensures Explained(before + ns, own, count, deep', w)
  {
    forall i | 0 <= i < |ns| ensures (before + ns)[|before| + i] == ns[i] { }
  }

  lemma {:induction false} WalkExplained(n: Node, own: Classifier, depth: nat, count: nat, parts: seq<Part>)
    requires Sound(own) && OnlyLeavesFail(own)
    ensures Explained(Pre(n), own, count, depth + Height(n) > 20, Walk(n, own, depth, count, parts))
    decreases n, 0
  {
    if n.Multi? && n.boundary && depth <= MAX_DEPTH && count < MAX_PARTS {
      var w := WalkAll(n.children, own, depth + 1, count + 1, parts);
      WalkAllExplained(n.children, own, depth + 1, count + 1, parts);
      WalkAllTakesInOrder(n.children, own, depth + 1, count + 1, parts);
      ExplainedAfter([n], PreAll(n.children), own, count,
                     n.children != [] && depth + 1 + HeightAll(n.children) > 20, depth + Height(n) > 20, w);
      if w.err.None? && !n.ends { assert Pre(n)[0] == n; }
    }
  }

  lemma {:induction false} WalkAllExplained(ns: seq<Node>, own: Classifier, depth: nat, count: nat, parts: seq<Part>)
    requires Sound(own) && OnlyLeavesFail(own)
    ensures Explained(PreAll(ns), own, count, ns != [] && depth + HeightAll(ns) > 20,
                      WalkAll(ns, own, depth, count, parts))
    decreases ns, 1
  {
    if ns != [] {
      var v := Walk(ns[0], own, depth, count, parts);
      WalkExplained(ns[0], own, depth, count, parts);
      WalkTakesInOrder(ns[0], own, depth, count, parts);
      var deep := depth + HeightAll(ns) > 20;
      if v.err.Some? || v.count >= MAX_PARTS {
        ExplainedBefore(Pre(ns[0]), PreAll(ns[1..]), own, count, depth + Height(ns[0]) > 20, deep, v);
      } else {
        WalkAllExplained(ns[1..], own, depth, v.count, v.parts);
        ExplainedAfter(Pre(ns[0]), PreAll(ns[1..]), own, count,
                       ns[1..] != [] && depth + HeightAll(ns[1..]) > 20, deep, WalkAll(ns, own, depth, count, parts));
      }
    }
  }

  /** The error of a walk that fails is what it met where it stopped. */
  lemma MessageError(n: Node, inline: bool)
    ensures Explained(Pre(n), Classify(inline), 0, Height(n) > 20, Walk(n, Classify(inline), 0, 0, []))
  {
    WalkExplained(n, Classify(inline), 0, 0, []);
  }

  // ---------------------------------------------------------------- the source's form

  class Result {
    var partCount: nat
    var parts: seq<Part>

    constructor ()
      ensures partCount == 0 && parts == []
    {
      partCount, parts := 0, [];
    }

    method WalkPart(n: Node, inline: bool, depth: nat) returns (err: Option<Error>)
      modifies this
      ensures Walked(partCount, parts, err) == Walk(n, Classify(inline), depth, old(partCount), old(parts))
      decreases n
    {
      if depth > MAX_DEPTH || partCount >= MAX_PARTS { return Some(Truncated); }
      partCount := partCount + 1;
      if n.Leaf? {
        err := AddLeaf(n, inline);
        return;
      }
      if !n.boundary { return Some(NoBoundary); }
      ghost var goal := WalkAll(n.children, Classify(inline), depth + 1, partCount, parts);
      assert n.children[0..] == n.children;
      var i := 0;
      while true
        invariant 0 <= i <= |n.children|
        invariant WalkAll(n.children[i..], Classify(inline), depth + 1, partCount, parts) == goal
        decreases |n.children| - i
      {
        if i == |n.children| { return if n.ends then None else Some(BadPart); }
        var child := n.children[i];
        assert n.children[i..][1..] == n.children[i + 1..];
        err := WalkPart(child, inline, depth + 1);
        if err.Some? { return; }
        if partCount >= MAX_PARTS { return Some(Truncated); }
        i := i + 1;
      }
    }

    method AddLeaf(n: Node, inline: bool) returns (err: Option<Error>)
      requires n.Leaf?
      modifies this`parts
      ensures var own := Own(n, inline);
        && err == (if own.Fails? then Some(own.err) else None)
        && parts == (if own.Fails? then old(parts) else old(parts) + own.parts)
    {
      if !IsAttachment(n, inline) { return if n.body.Unread? then Some(Unreadable) else None; }
      match n.body {
        case Unread => return Some(Unreadable);
        case Undecodable => return Some(BadEncoding);
        case Decoded(content) => parts := parts + [Part(n.filename, n.mediaType, n.disposition, content)];
      }
      err := None;
    }
  }

  // ---------------------------------------------------------------- reading base64 without its line breaks

  predicate IsSpace(c: char) { c == ' ' || c == '\t' || c == '\r' || c == '\n' }

  function NoSpace(s: string): string {
    if s == "" then "" else (if IsSpace(s[0]) then "" else [s[0]]) + NoSpace(s[1..])
  }

  lemma {:induction false} NoSpaceCat(a: string, b: string)
    ensures NoSpace(a + b) == NoSpace(a) + NoSpace(b)
  {
    if a == "" {
      assert a + b == b;
    } else {
      NoSpaceCat(a[1..], b);
      assert (a + b)[1..] == a[1..] + b;
      Assoc(if IsSpace(a[0]) then "" else [a[0]], NoSpace(a[1..]), NoSpace(b));
    }
  }

  /** The compaction in place: the kept bytes move to the front, in order. */
  method Squeeze(p: array<char>, n: nat) returns (w: nat)
    requires n <= p.Length
    modifies p
    ensures w <= n && p[..w] == NoSpace(old(p[..n]))
  {
    ghost var was := p[..];
    w := 0;
    for i := 0 to n
      invariant w <= i && p[..w] == NoSpace(was[..i])
      invariant forall j :: i <= j < p.Length ==> p[j] == was[j]
    {
      assert was[..i + 1] == was[..i] + [was[i]];
      NoSpaceCat(was[..i], [was[i]]);
      if !IsSpace(p[i]) {
        p[w] := p[i];
        w := w + 1;
      }
    }
    assert was[..n] == old(p[..n]);
  }

  /** `src` is what the reader below will still give, and `end` the error it gives then: the end of the input, or
      another. */
  class SpaceStripper {
    var src: string
    const end: string

    constructor (source: string, end: string)
      ensures src == source && this.end == end
    {
      src, this.end := source, end;
    }

    /** One call of stripSpace.Read: something that is not blank, or the error of the reader below.  `most(k)` is
        how much that one gives in the k-th try, and `early(k)` whether its error comes with its last bytes. */
    method Read(p: array<char>, most: nat -> nat, early: nat -> bool) returns (w: nat, err: Option<string>)
      requires p.Length > 0 && forall k :: most(k) > 0
      modifies this`src, p
      ensures w <= p.Length && NoSpace(old(src)) == p[..w] + NoSpace(src)
      ensures w > 0 || err.Some?
      ensures err.Some? ==> err.value == end && src == ""
    {
      ghost var was := src;
      var k := 0;
      while true
        invariant NoSpace(was) == NoSpace(src)
        decreases |src|
      {
        if src == "" { return 0, Some(end); }
        var most := if most(k) < p.Length then most(k) else p.Length;
        var n := if most < |src| then most else |src|;
        var chunk := src[..n];
        forall i | 0 <= i < n { p[i] := chunk[i]; }
        assert p[..n] == chunk;
        NoSpaceCat(chunk, src[n..]);
        assert src == chunk + src[n..];
        src := src[n..];
        err := if src == "" && early(k) then Some(end) else None;
        w := Squeeze(p, n);
        if w > 0 || err.Some? { return; }
        k := k + 1;
      }
    }
  }
}
