/**
 * The agent's mental map (mental-map.ts) as a tree: what its id-addressed editing
 * tools can change, and what they never can.
 */
module MentalMap {
  import opened Options
  import Seqs

  datatype Attr = Attr(name: string, value: string)

  datatype Node =
    | Text(text: string)
    | Element(tag: string, attrs: seq<Attr>, children: Forest)

  datatype Forest = Nil | Cons(head: Node, tail: Forest)

  const ROOT_PARENT_ID := "root"

  // ------------------------------------------------------------------ reading the tree

  function Lookup(attrs: seq<Attr>, name: string): Option<string> {
    if attrs == [] then None
    else if attrs[0].name == name then Some(attrs[0].value)
    else Lookup(attrs[1..], name)
  }

  /** The element's id, "" for none. */
  function Id(n: Node): string {
    if n.Element? then
      match Lookup(n.attrs, "id")
      case None => ""
      case Some(v) => v
    else ""
  }

  function Concat(a: Forest, b: Forest): Forest {
    match a
    case Nil => b
    case Cons(h, t) => Cons(h, Concat(t, b))
  }

  /** How many elements have this id. */
  function Count(f: Forest, id: string): nat {
    match f
    case Nil => 0
    case Cons(h, t) => NodeCount(h, id) + Count(t, id)
  }

  function NodeCount(n: Node, id: string): nat {
    match n
    case Text(_) => 0
    case Element(_, _, children) => (if Id(n) == id then 1 else 0) + Count(children, id)
  }

  /** `getElementById`: the first element in tree order with this id. */
  function Find(f: Forest, id: string): Option<Node> {
    match f
    case Nil => None
    case Cons(h, t) =>
      if id != "" && Id(h) == id then Some(h)
      else
        var inside := if h.Element? then Find(h.children, id) else None;
        if inside.Some? then inside else Find(t, id)
  }

  /** The first element in tree order with `data-managed` set to this key. */
  function FindManaged(f: Forest, key: string): (r: Option<Node>)
    ensures r.Some? ==> r.value.Element? && Lookup(r.value.attrs, "data-managed") == Some(key)
  {
    match f
    case Nil => None
    case Cons(h, t) =>
      if h.Element? && Lookup(h.attrs, "data-managed") == Some(key) then Some(h)
      else
        var inside := if h.Element? then FindManaged(h.children, key) else None;
        if inside.Some? then inside else FindManaged(t, key)
  }

  // ------------------------------------------------------------------ sanitising

  function Lower(c: char): char {
    if 'A' <= c <= 'Z' then c - 'A' + 'a' else c
  }

  function ToLower(s: string): (r: string)
    ensures |r| == |s| && forall i :: 0 <= i < |s| ==> r[i] == Lower(s[i])
  {
    if s == "" then "" else [Lower(s[0])] + ToLower(s[1..])
  }

  predicate Stripped(name: string) {
    var n := ToLower(name);
    "on" <= n || n == "id" || n == "data-managed"
  }

  function StripAttrs(attrs: seq<Attr>): (r: seq<Attr>)
    ensures forall a :: a in r <==> a in attrs && !Stripped(a.name)
    ensures (forall a :: a in attrs ==> !Stripped(a.name)) ==> r == attrs
  {
    if attrs == [] then []
    else (if Stripped(attrs[0].name) then [] else [attrs[0]]) + StripAttrs(attrs[1..])
  }

  /** `sanitizeFragment`. */
  function Sanitize(f: Forest): Forest {
    match f
    case Nil => Nil
    case Cons(Text(s), t) => Cons(Text(s), Sanitize(t))
    case Cons(Element(tag, attrs, children), t) =>
      if tag == "script" then Sanitize(t)
      else Cons(Element(tag, StripAttrs(attrs), Sanitize(children)), Sanitize(t))
  }

  /** No script, no handler, no id and no managed key anywhere. */
  predicate Clean(f: Forest) {
    match f
    case Nil => true
    case Cons(Text(_), t) => Clean(t)
    case Cons(Element(tag, attrs, children), t) =>
      tag != "script" && (forall a :: a in attrs ==> !Stripped(a.name)) && Clean(children) && Clean(t)
  }

  lemma {:induction false} SanitizedIsClean(f: Forest)
    ensures Clean(Sanitize(f))
  {
    match f
    case Nil =>
    case Cons(h, t) =>
      SanitizedIsClean(t);
      if h.Element? {
        SanitizedIsClean(h.children);
      }
  }

  /** A document as it is written: opening tags with their attributes, texts, closing tags. */
  datatype Mark = Opens(tag: string, attrs: seq<Attr>) | Says(text: string) | Closes

  function Written(f: Forest): seq<Mark> {
    match f
    case Nil => []
    case Cons(Text(s), t) => [Says(s)] + Written(t)
    case Cons(Element(tag, attrs, children), t) => [Opens(tag, attrs)] + Written(children) + [Closes] + Written(t)
  }

  /** The same without its scripts. */
  function Unscripted(f: Forest): seq<Mark> {
    match f
    case Nil => []
    case Cons(Text(s), t) => [Says(s)] + Unscripted(t)
    case Cons(Element(tag, attrs, children), t) =>
      if tag == "script" then Unscripted(t)
      else [Opens(tag, attrs)] + Unscripted(children) + [Closes] + Unscripted(t)
  }

  /** This letter, small or capital. */
  predicate Spells(c: char, letter: char) {
    c == letter || ('a' <= letter <= 'z' && c == letter - 'a' + 'A')
  }

  /** A handler, or the name of an id or a managed key, in any case. */
  predicate Harmful(name: string) {
    || (|name| >= 2 && Spells(name[0], 'o') && Spells(name[1], 'n'))
    || (|name| == 2 && Spells(name[0], 'i') && Spells(name[1], 'd'))
    || (|name| == 12 && forall i :: 0 <= i < 12 ==> Spells(name[i], "data-managed"[i]))
  }

  lemma StrippedIsHarmful(name: string)
    ensures Stripped(name) <==> Harmful(name)
  {
    var n := ToLower(name);
    var on, id, managed := "on", "id", "data-managed";
    assert |managed| == 12;
    if n == managed {
      forall i | 0 <= i < 12 ensures Spells(name[i], managed[i]) {
        assert n[i] == managed[i];
      }
    }
  }

  /** These are exactly the harmless attributes, in their order. */
  ghost predicate HarmlessOf(attrs: seq<Attr>, kept: seq<Attr>)
    decreases |attrs|
  {
    if attrs == [] then kept == []
    else if Harmful(attrs[0].name) then HarmlessOf(attrs[1..], kept)
    else kept != [] && kept[0] == attrs[0] && HarmlessOf(attrs[1..], kept[1..])
  }

  lemma {:induction false} StripKeepsTheHarmless(attrs: seq<Attr>)
    ensures HarmlessOf(attrs, StripAttrs(attrs))
  {
    if attrs != [] {
      StrippedIsHarmful(attrs[0].name);
      StripKeepsTheHarmless(attrs[1..]);
      StripHead(attrs);
    }
  }

  lemma StripHead(attrs: seq<Attr>)
    requires attrs != []
    ensures Stripped(attrs[0].name) ==> StripAttrs(attrs) == StripAttrs(attrs[1..])
    ensures !Stripped(attrs[0].name) ==>
              var rest := StripAttrs(attrs);
              rest != [] && rest[0] == attrs[0] && rest[1..] == StripAttrs(attrs[1..])
  {
  }

  ghost predicate MarkKept(before: Mark, after: Mark) {
    match before
    case Opens(tag, attrs) => after.Opens? && after.tag == tag && HarmlessOf(attrs, after.attrs)
    case _ => after == before
  }

  ghost predicate AllKept(before: seq<Mark>, after: seq<Mark>) {
    |after| == |before| && forall i :: 0 <= i < |before| ==> MarkKept(before[i], after[i])
  }

  lemma KeptThen(a: seq<Mark>, b: seq<Mark>, a': seq<Mark>, b': seq<Mark>)
    requires AllKept(a, a') && AllKept(b, b')
    ensures AllKept(a + b, a' + b')
  {
    forall i | 0 <= i < |a + b| ensures MarkKept((a + b)[i], (a' + b')[i]) {
      if i < |a| {
        assert MarkKept(a[i], a'[i]);
      } else {
        assert MarkKept(b[i - |a|], b'[i - |a|]);
      }
    }
  }

  /**
   * Sanitising keeps every text and every element outside of scripts where it is, with
   * exactly its harmless attributes.
   */
  lemma {:induction false} SanitizeKeepsTheRest(f: Forest)
    ensures AllKept(Unscripted(f), Written(Sanitize(f)))
  {
    match f
    case Nil =>
    case Cons(Text(s), t) =>
      SanitizeKeepsTheRest(t);
      KeptThen([Says(s)], Unscripted(t), [Says(s)], Written(Sanitize(t)));
    case Cons(Element(tag, attrs, children), t) =>
      SanitizeKeepsTheRest(t);
      if tag != "script" {
        SanitizeKeepsTheRest(children);
        StripKeepsTheHarmless(attrs);
        var opens, opens' := [Opens(tag, attrs)], [Opens(tag, StripAttrs(attrs))];
        KeptThen(opens, Unscripted(children), opens', Written(Sanitize(children)));
        KeptThen(opens + Unscripted(children), [Closes], opens' + Written(Sanitize(children)), [Closes]);
        KeptThen(opens + Unscripted(children) + [Closes], Unscripted(t),
                 opens' + Written(Sanitize(children)) + [Closes], Written(Sanitize(t)));
      }
  }

  /** So a fragment without any of what it is there to drop stays as it is. */
  lemma {:induction false} CleanIsKept(f: Forest)
    requires Clean(f)
    ensures Sanitize(f) == f
  {
    match f
    case Nil =>
    case Cons(h, t) =>
      CleanIsKept(t);
      if h.Element? {
        CleanIsKept(h.children);
      }
  }

  lemma {:induction false} LowerIsKept(s: string)
    requires forall i :: 0 <= i < |s| ==> !('A' <= s[i] <= 'Z')
    ensures ToLower(s) == s
  {
    if s != "" {
      LowerIsKept(s[1..]);
    }
  }

  /** The two names no sanitised attribute has. */
  predicate Special(name: string) {
    name == "id" || name == "data-managed"
  }

  lemma SpecialIsStripped(name: string)
    requires Special(name)
    ensures Stripped(name)
  {
    LowerIsKept(name);
  }

  lemma {:induction false} NoIdAttribute(attrs: seq<Attr>, name: string)
    requires forall a :: a in attrs ==> !Stripped(a.name)
    requires Special(name)
    ensures Lookup(attrs, name) == None
  {
    if attrs != [] {
      SpecialIsStripped(name);
      assert attrs[0] in attrs;
      NoIdAttribute(attrs[1..], name);
    }
  }

  lemma {:induction false} CleanHasNoIds(f: Forest, id: string)
    requires Clean(f) && id != ""
    ensures Count(f, id) == 0
  {
    match f
    case Nil =>
    case Cons(h, t) =>
      CleanHasNoIds(t, id);
      if h.Element? {
        NoIdAttribute(h.attrs, "id");
        CleanHasNoIds(h.children, id);
      }
  }

  // ------------------------------------------------------------------ edits

  /** What an edit does to the element it addresses. */
  datatype Op =
    | Replace(content: Forest)
    | Append(content: Forest)
    | AppendChild(child: Node)
    | Delete

  function Apply(op: Op, n: Node): Forest
    requires n.Element?
  {
    match op
    case Replace(content) => Cons(n.(children := content), Nil)
    case Append(content) => Cons(n.(children := Concat(n.children, content)), Nil)
    case AppendChild(child) => Cons(n.(children := Concat(n.children, Cons(child, Nil))), Nil)
    case Delete => Nil
  }

  /** The tree with op applied to its first element with this id; unchanged without one. */
  function Edit(f: Forest, id: string, op: Op): Forest {
    match f
    case Nil => Nil
    case Cons(h, t) =>
      if id != "" && Id(h) == id then Concat(Apply(op, h), t)
      else if h.Element? && Find(h.children, id).Some? then Cons(h.(children := Edit(h.children, id, op)), t)
      else Cons(h, Edit(t, id, op))
  }

  datatype Error = NoSuchElement | InvalidId | ReservedId | IdExists | NoSuchParent | NotInitialised

  datatype Result = Ok(html: Forest) | Err(error: Error)

  function UpdateElement(html: Forest, target: string, content: Forest, append: bool): Result {
    if Find(html, target).None? then Err(NoSuchElement)
    else Ok(Edit(html, target, if append then Append(Sanitize(content)) else Replace(Sanitize(content))))
  }

  predicate Letter(c: char) {
    'a' <= c <= 'z'
  }

  /** ^[a-z][a-z0-9-]*$ */
  predicate ValidId(s: string) {
    s != "" && Letter(s[0]) && forall i :: 0 < i < |s| ==> Letter(s[i]) || '0' <= s[i] <= '9' || s[i] == '-'
  }

  function NewElement(id: string, content: Forest): Node {
    Element("div", [Attr("id", id)], Sanitize(content))
  }

  function AddElement(html: Forest, newId: string, parent: string, content: Forest): Result {
    if !ValidId(newId) then Err(InvalidId)
    else if newId == ROOT_PARENT_ID then Err(ReservedId)
    else if Find(html, newId).Some? then Err(IdExists)
    else if parent == ROOT_PARENT_ID then Ok(Concat(html, Cons(NewElement(newId, content), Nil)))
    else if Find(html, parent).None? then Err(NoSuchParent)
    else Ok(Edit(html, parent, AppendChild(NewElement(newId, content))))
  }

  function RemoveElement(html: Forest, target: string): Result {
    if Find(html, target).None? then Err(NoSuchElement) else Ok(Edit(html, target, Delete))
  }

  // ------------------------------------------------------------------ what an edit does

  /** How an element is addressed: by its id, or as a managed region by its key. */
  datatype Address = ById(id: string) | ByKey(key: string)

  predicate Addressed(n: Node, at: Address) {
    match at
    case ById(id) => Id(n) == id
    case ByKey(key) => n.Element? && Lookup(n.attrs, "data-managed") == Some(key)
  }

  /** Nothing written here opens an element so addressed. */
  predicate Without(ws: seq<Mark>, at: Address) {
    forall i :: 0 <= i < |ws| && ws[i].Opens? ==> !Addressed(Element(ws[i].tag, ws[i].attrs, Nil), at)
  }

  /** One stretch is written anew; all before and behind it stays. */
  ghost predicate Swapped(before: seq<Mark>, after: seq<Mark>, was: seq<Mark>, instead: seq<Mark>, at: Address) {
    exists a, b :: before == a + was + b && after == a + instead + b && Without(a, at)
  }

  /** The first element so addressed, and only it, is written anew as this. */
  ghost predicate Spliced(before: Forest, after: Forest, at: Address, was: Node, instead: Forest) {
    && was.Element? && Addressed(was, at)
    && Swapped(Written(before), Written(after), Written(Cons(was, Nil)), Written(instead), at)
  }

  lemma {:induction false} WrittenConcat(a: Forest, b: Forest)
    ensures Written(Concat(a, b)) == Written(a) + Written(b)
  {
    match a
    case Nil => Seqs.NothingBefore(Written(b));
    case Cons(h, t) =>
      WrittenConcat(t, b);
      Seqs.Regroup(Written(Cons(h, Nil)), Written(t), Written(b));
      WrittenCons(h, t);
      WrittenCons(h, Concat(t, b));
  }

  lemma WrittenCons(h: Node, t: Forest)
    ensures Written(Cons(h, t)) == Written(Cons(h, Nil)) + Written(t)
  {
    match h
    case Text(s) => assert [Says(s)] + [] == [Says(s)];
    case Element(tag, attrs, children) =>
      var ws := [Opens(tag, attrs)] + Written(children) + [Closes];
      assert ws + [] == ws;
  }

  lemma Around<T>(x: seq<T>, a: seq<T>, m: seq<T>, b: seq<T>, y: seq<T>)
    ensures x + (a + m + b) + y == (x + a) + m + (b + y)
  {
  }

  /** What is written of a forest that is not empty, up to and behind its first node. */
  function FirstMark(h: Node): Mark {
    match h
    case Text(s) => Says(s)
    case Element(tag, attrs, _) => Opens(tag, attrs)
  }

  function BehindIt(h: Node, t: Forest, x: seq<Mark>): seq<Mark> {
    if h.Element? then Written(h.children) + [Closes] + (Written(t) + [Closes] + x) else Written(t) + [Closes] + x
  }

  lemma Grouped<T>(a: seq<T>, b: seq<T>, c: seq<T>, d: seq<T>, e: seq<T>)
    ensures a + b + c + d + e == a + (b + (c + d + e))
  {
  }

  lemma BehindTheFirstMark(h: Node, t: Forest, x: seq<Mark>)
    ensures Written(Cons(h, t)) + [Closes] + x == [FirstMark(h)] + BehindIt(h, t, x)
  {
    var first := [FirstMark(h)];
    match h
    case Text(_) =>
      Grouped(first, [], Written(t), [Closes], x);
      Seqs.NothingBefore(Written(t) + [Closes] + x);
      assert first + [] == first;
    case Element(_, _, children) =>
      var inside := Written(children) + [Closes];
      Seqs.Regroup(first, Written(children), [Closes]);
      Grouped(first, inside, Written(t), [Closes], x);
  }

  lemma SameFirst<T>(a: T, x: seq<T>, b: T, y: seq<T>)
    requires [a] + x == [b] + y
    ensures a == b && x == y
  {
    assert ([a] + x)[0] == a && ([b] + y)[0] == b;
    assert x == ([a] + x)[1..] && y == ([b] + y)[1..];
  }

  /** What is written tells the tree. */
  lemma {:induction false} WrittenTells(f: Forest, g: Forest, x: seq<Mark>, y: seq<Mark>)
    requires Written(f) + [Closes] + x == Written(g) + [Closes] + y
    ensures f == g && x == y
    decreases f
  {
    var u, v := Written(f) + [Closes] + x, Written(g) + [Closes] + y;
    if f.Cons? {
      BehindTheFirstMark(f.head, f.tail, x);
      assert u[0] == FirstMark(f.head);
    } else {
      assert u == [Closes] + x;
    }
    if g.Cons? {
      BehindTheFirstMark(g.head, g.tail, y);
      assert v[0] == FirstMark(g.head);
    } else {
      assert v == [Closes] + y;
    }
    if f.Cons? && g.Cons? {
      SameFirst(FirstMark(f.head), BehindIt(f.head, f.tail, x), FirstMark(g.head), BehindIt(g.head, g.tail, y));
      if f.head.Element? {
        WrittenTells(f.head.children, g.head.children, Written(f.tail) + [Closes] + x, Written(g.tail) + [Closes] + y);
      }
      WrittenTells(f.tail, g.tail, x, y);
    } else if f.Nil? && g.Nil? {
      SameFirst(Closes, x, Closes, y);
    }
  }

  /** Two maps are the same if the same is written. */
  lemma SameWrittenSameMap(f: Forest, g: Forest)
    requires Written(f) == Written(g)
    ensures f == g
  {
    WrittenTells(f, g, [], []);
  }

  lemma {:induction false} NotFoundNotWritten(f: Forest, id: string)
    requires id != "" && Find(f, id).None?
    ensures Without(Written(f), ById(id))
  {
    match f
    case Nil =>
    case Cons(h, t) =>
      NotFoundNotWritten(t, id);
      if h.Element? {
        NotFoundNotWritten(h.children, id);
        SameId(h);
      }
  }

  lemma SameId(h: Node)
    requires h.Element?
    ensures Id(Element(h.tag, h.attrs, Nil)) == Id(h)
  {
  }

  lemma WithoutThen(a: seq<Mark>, b: seq<Mark>, at: Address)
    requires Without(a, at) && Without(b, at)
    ensures Without(a + b, at)
  {
  }

  /** The same, with something written before and behind. */
  lemma SwappedBetween(before: seq<Mark>, after: seq<Mark>, was: seq<Mark>, instead: seq<Mark>, at: Address,
                       x: seq<Mark>, y: seq<Mark>)
    requires Swapped(before, after, was, instead, at) && Without(x, at)
    ensures Swapped(x + before + y, x + after + y, was, instead, at)
  {
    var a, b :| before == a + was + b && after == a + instead + b && Without(a, at);
    Around(x, a, was, b, y);
    Around(x, a, instead, b, y);
    WithoutThen(x, a, at);
  }

  lemma SplicedBehind(h: Node, t: Forest, t': Forest, at: Address, was: Node, instead: Forest)
    requires Spliced(t, t', at, was, instead) && Without(Written(Cons(h, Nil)), at)
    ensures Spliced(Cons(h, t), Cons(h, t'), at, was, instead)
  {
    var first := Written(Cons(h, Nil));
    WrittenCons(h, t);
    WrittenCons(h, t');
    assert first + Written(t) + [] == first + Written(t) && first + Written(t') + [] == first + Written(t');
    SwappedBetween(Written(t), Written(t'), Written(Cons(was, Nil)), Written(instead), at, first, []);
  }

  lemma WrittenInside(h: Node, t: Forest)
    requires h.Element?
    ensures Written(Cons(h, t)) == [Opens(h.tag, h.attrs)] + Written(h.children) + ([Closes] + Written(t))
  {
  }

  lemma SplicedInside(h: Node, t: Forest, children: Forest, at: Address, was: Node, instead: Forest)
    requires h.Element? && Spliced(h.children, children, at, was, instead) && !Addressed(h, at)
    ensures Spliced(Cons(h, t), Cons(h.(children := children), t), at, was, instead)
  {
    var opens, closes := [Opens(h.tag, h.attrs)], [Closes] + Written(t);
    WrittenInside(h, t);
    WrittenInside(h.(children := children), t);
    SwappedBetween(Written(h.children), Written(children), Written(Cons(was, Nil)), Written(instead), at,
                   opens, closes);
  }

  lemma SplicedHere(h: Node, t: Forest, at: Address, instead: Forest)
    requires h.Element? && Addressed(h, at)
    ensures Spliced(Cons(h, t), Concat(instead, t), at, h, instead)
  {
    WrittenCons(h, t);
    WrittenConcat(instead, t);
    Seqs.NothingBefore(Written(Cons(h, Nil)));
    Seqs.NothingBefore(Written(instead));
    assert Written(Cons(h, t)) == [] + Written(Cons(h, Nil)) + Written(t);
    assert Written(Concat(instead, t)) == [] + Written(instead) + Written(t);
    assert Without([], at);
  }

  lemma {:induction false} EditSplices(f: Forest, id: string, op: Op)
    requires id != "" && Find(f, id).Some?
    ensures var was := Find(f, id).value;
            was.Element? && Spliced(f, Edit(f, id, op), ById(id), was, Apply(op, was))
  {
    match f
    case Cons(h, t) =>
      var was := Find(f, id).value;
      if Id(h) == id {
        SplicedHere(h, t, ById(id), Apply(op, h));
      } else if h.Element? && Find(h.children, id).Some? {
        EditSplices(h.children, id, op);
        SplicedInside(h, t, Edit(h.children, id, op), ById(id), was, Apply(op, was));
      } else {
        EditSplices(t, id, op);
        OneNotWritten(h, id);
        SplicedBehind(h, t, Edit(t, id, op), ById(id), was, Apply(op, was));
      }
  }

  lemma OneNotWritten(h: Node, id: string)
    requires id != "" && Id(h) != id && (h.Element? ==> Find(h.children, id).None?)
    ensures Without(Written(Cons(h, Nil)), ById(id))
  {
    assert Find(Nil, id).None?;
    NotFoundNotWritten(Cons(h, Nil), id);
  }

  lemma {:induction false} FindsTheEdited(f: Forest, id: string, op: Op, n: Node)
    requires id != "" && Find(f, id).Some? && Find(f, id).value.Element?
    requires Apply(op, Find(f, id).value) == Cons(n, Nil) && n.Element? && Id(n) == id
    ensures Find(Edit(f, id, op), id) == Some(n)
  {
    match f
    case Cons(h, t) =>
      if Id(h) == id {
      } else if h.Element? && Find(h.children, id).Some? {
        FindsTheEdited(h.children, id, op, n);
        SameId(h);
        SameId(h.(children := Edit(h.children, id, op)));
      } else {
        FindsTheEdited(t, id, op, n);
      }
  }

  lemma FindNeedsAnId(f: Forest)
    ensures Find(f, "").None?
  {
    NothingFound(f, "");
  }

  lemma {:induction false} NothingFound(f: Forest, id: string)
    requires id == ""
    ensures Find(f, id).None?
  {
    match f
    case Nil =>
    case Cons(h, t) =>
      NothingFound(t, id);
      if h.Element? {
        NothingFound(h.children, id);
      }
  }

  /**
   * The first element with the id holds the content, sanitised, or has it behind its old
   * children; it keeps its tag and attributes, and all else is as it was.
   */
  ghost predicate Updated(before: Forest, after: Forest, target: string, content: Forest, append: bool) {
    && Find(before, target).Some?
    && var was := Find(before, target).value;
       was.Element? &&
       var instead := Element(was.tag, was.attrs,
                           if append then Concat(was.children, Sanitize(content)) else Sanitize(content));
       Find(after, target) == Some(instead) && Spliced(before, after, ById(target), was, Cons(instead, Nil))
  }

  lemma AnUpdateSetsTheContent(html: Forest, target: string, content: Forest, append: bool)
    ensures UpdateElement(html, target, content, append).Err? <==> Find(html, target).None?
    ensures Find(html, target).Some? ==>
              Updated(html, UpdateElement(html, target, content, append).html, target, content, append)
  {
    FindNeedsAnId(html);
    if Find(html, target).Some? {
      var op := if append then Append(Sanitize(content)) else Replace(Sanitize(content));
      EditSplices(html, target, op);
      var was := Find(html, target).value;
      SameId(was);
      FindsTheEdited(html, target, op, Apply(op, was).head);
    }
  }

  /** The first element with the id is gone with all it held; all else is as it was. */
  ghost predicate Removed(before: Forest, after: Forest, target: string) {
    Find(before, target).Some? && Spliced(before, after, ById(target), Find(before, target).value, Nil)
  }

  lemma ARemovalTakesTheElement(html: Forest, target: string)
    ensures RemoveElement(html, target).Err? <==> Find(html, target).None?
    ensures Find(html, target).Some? ==> Removed(html, RemoveElement(html, target).html, target)
  {
    FindNeedsAnId(html);
    if Find(html, target).Some? {
      EditSplices(html, target, Delete);
    }
  }

  /** The content, sanitised, is in a new div, the last child of the parent or of the body; all else is as it was. */
  ghost predicate AddedTo(before: Forest, after: Forest, newId: string, parent: string, content: Forest) {
    var div := Element("div", [Attr("id", newId)], Sanitize(content));
    && Find(after, newId) == Some(div)
    && if parent == "root" then after == Concat(before, Cons(div, Nil))
       else
         && Find(before, parent).Some?
         && var was := Find(before, parent).value;
            was.Element? && Spliced(before, after, ById(parent), was,
              Cons(Element(was.tag, was.attrs, Concat(was.children, Cons(div, Nil))), Nil))
  }

  lemma AnAdditionMakesALastChild(html: Forest, newId: string, parent: string, content: Forest)
    requires AddElement(html, newId, parent, content).Ok?
    ensures AddedTo(html, AddElement(html, newId, parent, content).html, newId, parent, content)
  {
    var div := NewElement(newId, content);
    FindNeedsAnId(html);
    NewElementHasItsId(newId, content);
    if parent == "root" {
      FoundInConcat(html, Cons(div, Nil), newId);
    } else {
      EditSplices(html, parent, AppendChild(div));
      FoundInEdited(html, parent, div, newId);
    }
  }

  /** A lower-case letter, and then such letters, digits and dashes. */
  predicate Kebab(id: string) {
    && id != "" && 'a' <= id[0] <= 'z'
    && forall i :: 0 <= i < |id| ==> 'a' <= id[i] <= 'z' || '0' <= id[i] <= '9' || id[i] == '-'
  }

  /** There is such an id to give, and a place for it. */
  predicate CanBeAdded(html: Forest, newId: string, parent: string) {
    && Kebab(newId) && newId != "root" && Find(html, newId).None?
    && (parent == "root" || Find(html, parent).Some?)
  }

  /** When an addition fails, and with what. */
  lemma AnAdditionFailsExactly(html: Forest, newId: string, parent: string, content: Forest)
    ensures var r := AddElement(html, newId, parent, content);
            && (r == Err(InvalidId) <==> !Kebab(newId))
            && (r == Err(ReservedId) <==> Kebab(newId) && newId == "root")
            && (r == Err(IdExists) <==> Kebab(newId) && newId != "root" && Find(html, newId).Some?)
            && (r == Err(NoSuchParent) <==>
                  && Kebab(newId) && newId != "root" && Find(html, newId).None?
                  && parent != "root" && Find(html, parent).None?)
            && (r.Ok? <==> CanBeAdded(html, newId, parent))
  {
  }

  lemma NewElementHasItsId(newId: string, content: Forest)
    ensures Id(NewElement(newId, content)) == newId
  {
    assert [Attr("id", newId)][0].name == "id";
  }

  lemma {:induction false} FoundInConcat(a: Forest, b: Forest, id: string)
    requires id != "" && Find(a, id).None?
    ensures Find(Concat(a, b), id) == Find(b, id)
  {
    match a
    case Nil =>
    case Cons(_, t) => FoundInConcat(t, b, id);
  }

  /** The new child is the first with its id, which was free. */
  lemma {:induction false} FoundInEdited(f: Forest, parent: string, child: Node, id: string)
    requires id != "" && Find(f, id).None? && parent != "" && Find(f, parent).Some?
    requires child.Element? && Id(child) == id
    ensures Find(Edit(f, parent, AppendChild(child)), id) == Some(child)
  {
    match f
    case Cons(h, t) =>
      if Id(h) == parent {
        FoundInConcat(h.children, Cons(child, Nil), id);
        SameId(h);
        SameId(h.(children := Concat(h.children, Cons(child, Nil))));
      } else if h.Element? && Find(h.children, parent).Some? {
        FoundInEdited(h.children, parent, child, id);
        SameId(h);
        SameId(h.(children := Edit(h.children, parent, AppendChild(child))));
      } else {
        FoundInEdited(t, parent, child, id);
      }
  }

  // ------------------------------------------------------------------ protection

  /** What is left when every id'd element is deleted with all it contains. */
  function Skeleton(f: Forest): Forest {
    match f
    case Nil => Nil
    case Cons(Text(s), t) => Cons(Text(s), Skeleton(t))
    case Cons(Element(tag, attrs, children), t) =>
      if Id(f.head) != "" then Skeleton(t) else Cons(Element(tag, attrs, Skeleton(children)), Skeleton(t))
  }

  lemma {:induction false} SkeletonOfConcat(a: Forest, b: Forest)
    ensures Skeleton(Concat(a, b)) == Concat(Skeleton(a), Skeleton(b))
  {
    match a
    case Nil =>
    case Cons(_, t) => SkeletonOfConcat(t, b);
  }

  lemma {:induction false} ConcatNil(a: Forest)
    ensures Concat(a, Nil) == a
  {
    match a
    case Nil =>
    case Cons(_, t) => ConcatNil(t);
  }

  /** Editing an id'd element leaves the skeleton alone. */
  lemma {:induction false} EditKeepsSkeleton(f: Forest, id: string, op: Op)
    ensures Skeleton(Edit(f, id, op)) == Skeleton(f)
  {
    match f
    case Nil =>
    case Cons(h, t) =>
      if id != "" && Id(h) == id {
        SkeletonOfConcat(Apply(op, h), t);
        assert op.Delete? || Id(Apply(op, h).head) == Id(h);
      } else if h.Element? && Find(h.children, id).Some? {
        EditKeepsSkeleton(h.children, id, op);
        assert Id(h.(children := Edit(h.children, id, op))) == Id(h);
      } else {
        EditKeepsSkeleton(t, id, op);
      }
  }

  lemma {:induction false} CountOfConcat(a: Forest, b: Forest, id: string)
    ensures Count(Concat(a, b), id) == Count(a, id) + Count(b, id)
  {
    match a
    case Nil =>
    case Cons(_, t) => CountOfConcat(t, b, id);
  }

  lemma {:induction false} FindCounts(f: Forest, id: string)
    requires id != ""
    ensures Find(f, id).Some? <==> Count(f, id) > 0
  {
    match f
    case Nil =>
    case Cons(h, t) =>
      FindCounts(t, id);
      if h.Element? {
        FindCounts(h.children, id);
      }
  }

  /** How many elements with this id the edit's new content brings. */
  function Added(op: Op, id: string): nat {
    match op
    case Replace(content) => Count(content, id)
    case Append(content) => Count(content, id)
    case AppendChild(child) => NodeCount(child, id)
    case Delete => 0
  }

  lemma ApplyCount(op: Op, n: Node, id: string)
    requires n.Element?
    ensures Count(Apply(op, n), id) <= NodeCount(n, id) + Added(op, id)
    ensures op.AppendChild? ==> Count(Apply(op, n), id) == NodeCount(n, id) + Added(op, id)
  {
    match op
    case Replace(content) =>
    case Append(content) => CountOfConcat(n.children, content, id);
    case AppendChild(child) =>
      CountOfConcat(n.children, Cons(child, Nil), id);
      assert Count(Cons(child, Nil), id) == NodeCount(child, id);
    case Delete =>
  }

  lemma {:induction false} EditCount(f: Forest, target: string, op: Op, id: string)
    ensures Count(Edit(f, target, op), id) <= Count(f, id) + Added(op, id)
    ensures op.AppendChild? && Find(f, target).Some? ==> Count(Edit(f, target, op), id) == Count(f, id) + Added(op, id)
  {
    match f
    case Nil =>
    case Cons(h, t) =>
      if target != "" && Id(h) == target {
        ApplyCount(op, h, id);
        CountOfConcat(Apply(op, h), t, id);
      } else if h.Element? && Find(h.children, target).Some? {
        EditCount(h.children, target, op, id);
        assert Id(h.(children := Edit(h.children, target, op))) == Id(h);
      } else {
        EditCount(t, target, op, id);
      }
  }

  // ------------------------------------------------------------------ every sequence of edits

  datatype ToolCall =
    | Update(target: string, content: Forest, append: bool)
    | Add(newId: string, parent: string, content: Forest)
    | Remove(target: string)

  /** One tool call; an empty map counts as not initialised. */
  function Call(html: Forest, e: ToolCall): Result {
    if html == Nil then Err(NotInitialised)
    else
      match e
      case Update(target, content, append) => UpdateElement(html, target, content, append)
      case Add(newId, parent, content) => AddElement(html, newId, parent, content)
      case Remove(target) => RemoveElement(html, target)
  }

  function After(html: Forest, e: ToolCall): Forest {
    match Call(html, e)
    case Ok(edited) => edited
    case Err(_) => html
  }

  function AfterAll(html: Forest, es: seq<ToolCall>): Forest
    decreases |es|
  {
    if es == [] then html else AfterAll(After(html, es[0]), es[1..])
  }

  lemma OneEditKeepsSkeleton(html: Forest, e: ToolCall)
    ensures Skeleton(After(html, e)) == Skeleton(html)
  {
    match e
    case Update(target, content, append) =>
      EditKeepsSkeleton(html, target, if append then Append(Sanitize(content)) else Replace(Sanitize(content)));
    case Add(newId, parent, content) =>
      var n := NewElement(newId, content);
      EditKeepsSkeleton(html, parent, AppendChild(n));
      SkeletonOfConcat(html, Cons(n, Nil));
      ConcatNil(Skeleton(html));
      assert Id(n) == newId;
      assert newId != "" ==> Skeleton(Cons(n, Nil)) == Nil;
    case Remove(target) =>
      EditKeepsSkeleton(html, target, Delete);
  }

  /** No sequence of edits changes anything outside the id'd elements. */
  lemma {:induction false} TheSkeletonIsUntouchable(html: Forest, es: seq<ToolCall>)
    ensures Skeleton(AfterAll(html, es)) == Skeleton(html)
    decreases |es|
  {
    if es != [] {
      OneEditKeepsSkeleton(html, es[0]);
      TheSkeletonIsUntouchable(After(html, es[0]), es[1..]);
    }
  }

  /** No two elements share an id. */
  ghost predicate UniqueIds(f: Forest) {
    forall id :: id != "" ==> Count(f, id) <= 1
  }

  lemma NewElementCount(newId: string, content: Forest, id: string)
    requires newId != "" && id != ""
    ensures NodeCount(NewElement(newId, content), id) == if id == newId then 1 else 0
  {
    SanitizedIsClean(content);
    CleanHasNoIds(Sanitize(content), id);
    assert Id(NewElement(newId, content)) == newId;
  }

  /** An edit adds no id but an added element's own, which was not there before. */
  lemma OneEditCount(html: Forest, e: ToolCall, id: string)
    requires id != ""
    ensures var brings := e.Add? && Call(html, e).Ok? && id == e.newId;
            && Count(After(html, e), id) <= Count(html, id) + (if brings then 1 else 0)
            && (brings ==> Count(html, id) == 0 && Count(After(html, e), id) == 1)
  {
    if Call(html, e).Ok? {
      match e
      case Update(target, content, append) =>
        SanitizedIsClean(content);
        CleanHasNoIds(Sanitize(content), id);
        EditCount(html, target, if append then Append(Sanitize(content)) else Replace(Sanitize(content)), id);
      case Add(newId, parent, content) =>
        var n := NewElement(newId, content);
        NewElementCount(newId, content, id);
        EditCount(html, parent, AppendChild(n), id);
        CountOfConcat(html, Cons(n, Nil), id);
        assert Count(Cons(n, Nil), id) == NodeCount(n, id);
        FindCounts(html, newId);
      case Remove(target) =>
        EditCount(html, target, Delete, id);
    }
  }

  /** Unique ids stay unique. */
  lemma {:induction false} IdsStayUnique(html: Forest, es: seq<ToolCall>)
    requires UniqueIds(html)
    ensures UniqueIds(AfterAll(html, es))
    decreases |es|
  {
    if es != [] {
      forall id | id != "" ensures Count(After(html, es[0]), id) <= 1 {
        OneEditCount(html, es[0], id);
      }
      IdsStayUnique(After(html, es[0]), es[1..]);
    }
  }

  /** Every id that appears is the validated `new_id` of an edit, never the reserved one. */
  lemma {:induction false} OnlyValidatedIdsAppear(html: Forest, es: seq<ToolCall>, id: string)
    requires id != "" && Count(AfterAll(html, es), id) > 0 && Count(html, id) == 0
    ensures Kebab(id) && id != "root"
    ensures exists i :: 0 <= i < |es| && es[i].Add? && es[i].newId == id
    decreases |es|
  {
    OneEditCount(html, es[0], id);
    if Count(After(html, es[0]), id) == 0 {
      OnlyValidatedIdsAppear(After(html, es[0]), es[1..], id);
      var i :| 0 <= i < |es[1..]| && es[1..][i].Add? && es[1..][i].newId == id;
      assert es[i + 1] == es[1..][i];
    }
  }

  // ------------------------------------------------------------------ managed regions

  lemma {:induction false} CleanIsItsSkeleton(f: Forest)
    requires Clean(f)
    ensures Skeleton(f) == f
  {
    match f
    case Nil =>
    case Cons(h, t) =>
      CleanIsItsSkeleton(t);
      if h.Element? {
        NoIdAttribute(h.attrs, "id");
        CleanIsItsSkeleton(h.children);
      }
  }

  lemma {:induction false} CleanHasNoManaged(f: Forest, key: string)
    requires Clean(f)
    ensures FindManaged(f, key) == None
  {
    match f
    case Nil =>
    case Cons(h, t) =>
      CleanHasNoManaged(t, key);
      if h.Element? {
        NoIdAttribute(h.attrs, "data-managed");
        CleanHasNoManaged(h.children, key);
      }
  }

  function SetManaged(f: Forest, key: string, content: Forest): Forest {
    match f
    case Nil => Nil
    case Cons(h, t) =>
      if h.Element? && Lookup(h.attrs, "data-managed") == Some(key) then Cons(h.(children := content), t)
      else if h.Element? && FindManaged(h.children, key).Some? then
        Cons(h.(children := SetManaged(h.children, key, content)), t)
      else Cons(h, SetManaged(t, key, content))
  }

  /** `upsertManagedRegion`. */
  function UpsertManagedRegion(html: Forest, key: string, inner: Forest): Forest {
    if FindManaged(html, key).Some? then SetManaged(html, key, Sanitize(inner))
    else Cons(Element("section", [Attr("data-managed", key)], Sanitize(inner)), html)
  }

  lemma {:induction false} SetManagedSets(f: Forest, key: string, content: Forest)
    requires FindManaged(f, key).Some?
    ensures FindManaged(SetManaged(f, key, content), key) == Some(FindManaged(f, key).value.(children := content))
  {
    match f
    case Cons(h, t) =>
      if h.Element? && Lookup(h.attrs, "data-managed") == Some(key) {
      } else if h.Element? && FindManaged(h.children, key).Some? {
        SetManagedSets(h.children, key, content);
      } else {
        SetManagedSets(t, key, content);
      }
  }

  lemma {:induction false} SetManagedTwice(f: Forest, key: string, a: Forest, b: Forest)
    ensures SetManaged(SetManaged(f, key, a), key, b) == SetManaged(f, key, b)
  {
    match f
    case Nil =>
    case Cons(h, t) =>
      if h.Element? && Lookup(h.attrs, "data-managed") == Some(key) {
      } else if h.Element? && FindManaged(h.children, key).Some? {
        SetManagedSets(h.children, key, a);
        SetManagedTwice(h.children, key, a, b);
      } else {
        SetManagedTwice(t, key, a, b);
      }
  }

  lemma {:induction false} NoRegionNotWritten(f: Forest, key: string)
    requires FindManaged(f, key).None?
    ensures Without(Written(f), ByKey(key))
  {
    match f
    case Nil =>
    case Cons(h, t) =>
      NoRegionNotWritten(t, key);
      if h.Element? {
        NoRegionNotWritten(h.children, key);
      }
  }

  lemma {:induction false} SetManagedSplices(f: Forest, key: string, content: Forest)
    requires FindManaged(f, key).Some?
    ensures var was := FindManaged(f, key).value;
            Spliced(f, SetManaged(f, key, content), ByKey(key), was, Cons(was.(children := content), Nil))
  {
    match f
    case Cons(h, t) =>
      var was := FindManaged(f, key).value;
      var instead := Cons(was.(children := content), Nil);
      if h.Element? && Lookup(h.attrs, "data-managed") == Some(key) {
        SplicedHere(h, t, ByKey(key), instead);
        assert Concat(instead, t) == Cons(h.(children := content), t);
      } else if h.Element? && FindManaged(h.children, key).Some? {
        SetManagedSplices(h.children, key, content);
        SplicedInside(h, t, SetManaged(h.children, key, content), ByKey(key), was, instead);
      } else {
        SetManagedSplices(t, key, content);
        assert FindManaged(Nil, key).None?;
        NoRegionNotWritten(Cons(h, Nil), key);
        SplicedBehind(h, t, SetManaged(t, key, content), ByKey(key), was, instead);
      }
  }

  /**
   * After an upsert the region holds exactly the sanitised content and all else is as it
   * was, or a section with it stands at the top of what was there; a later upsert makes
   * an earlier one invisible.
   */
  lemma UpsertSetsTheRegion(html: Forest, key: string, inner: Forest, other: Forest)
    ensures var after, found := UpsertManagedRegion(html, key, inner), FindManaged(html, key);
            && (if found.Some? then
                  Spliced(html, after, ByKey(key), found.value, Cons(found.value.(children := Sanitize(inner)), Nil))
                else after == Cons(Element("section", [Attr("data-managed", key)], Sanitize(inner)), html))
            && FindManaged(after, key).Some? && FindManaged(after, key).value.Element?
            && FindManaged(after, key).value.children == Sanitize(inner)
            && UpsertManagedRegion(after, key, other) == UpsertManagedRegion(html, key, other)
  {
    if FindManaged(html, key).Some? {
      SetManagedSplices(html, key, Sanitize(inner));
      SetManagedSets(html, key, Sanitize(inner));
      SetManagedTwice(html, key, Sanitize(inner), Sanitize(other));
    }
  }

  /** No call reaches a first node without an id on it or in it. */
  lemma {:induction false} TheFirstNodeStays(n: Node, rest: Forest, es: seq<ToolCall>)
    requires Id(n) == "" && (n.Element? ==> Clean(n.children))
    ensures AfterAll(Cons(n, rest), es).Cons? && AfterAll(Cons(n, rest), es).head == n
    decreases |es|
  {
    if es != [] {
      OneCallKeepsTheFirstNode(n, rest, es[0]);
      TheFirstNodeStays(n, After(Cons(n, rest), es[0]).tail, es[1..]);
    }
  }

  lemma OneCallKeepsTheFirstNode(n: Node, rest: Forest, e: ToolCall)
    requires Id(n) == "" && (n.Element? ==> Clean(n.children))
    ensures After(Cons(n, rest), e).Cons? && After(Cons(n, rest), e).head == n
  {
    var target := match e case Update(t, _, _) => t case Add(_, parent, _) => parent case Remove(t) => t;
    if n.Element? && target != "" {
      FindCounts(n.children, target);
      CleanHasNoIds(n.children, target);
    }
    NothingFound(rest, "");
    if n.Element? {
      NothingFound(n.children, "");
    }
  }

  /**
   * A region the daemon put at the top stays what it is through every sequence of
   * edits, and the next upsert of its key finds that very region.
   */
  lemma ManagedRegionsAreUntouchable(html: Forest, key: string, inner: Forest, es: seq<ToolCall>)
    requires FindManaged(html, key).None?
    ensures var after := AfterAll(UpsertManagedRegion(html, key, inner), es);
            var region := Element("section", [Attr("data-managed", key)], Sanitize(inner));
            Skeleton(after) == Cons(region, Skeleton(html)) && FindManaged(after, key) == Some(region)
  {
    var region := Element("section", [Attr("data-managed", key)], Sanitize(inner));
    TheSkeletonIsUntouchable(UpsertManagedRegion(html, key, inner), es);
    SanitizedIsClean(inner);
    CleanIsItsSkeleton(Sanitize(inner));
    NotAnId(key);
    TheFirstNodeStays(region, html, es);
  }

  lemma NotAnId(key: string)
    ensures Lookup([Attr("data-managed", key)], "id") == None
  {
    var attrs := [Attr("data-managed", key)];
    assert attrs[1..] == [];
    assert attrs[0].name[0] == 'd';
    assert Lookup(attrs[1..], "id") == None;
  }

  // ------------------------------------------------------------------ the tools

  /** A map that has become empty cannot be edited any more, not even at the top level. */
  lemma {:induction false} AnEmptyMapStaysEmpty(es: seq<ToolCall>)
    ensures AfterAll(Nil, es) == Nil
    ensures es != [] ==> Call(Nil, es[0]) == Err(NotInitialised)
    decreases |es|
  {
    if es != [] {
      AnEmptyMapStaysEmpty(es[1..]);
    }
  }

  /** The calls that remove one top-level element after another. */
  function RemoveAll(html: Forest): seq<ToolCall> {
    match html
    case Nil => []
    case Cons(h, t) => [ToolCall.Remove(Id(h))] + RemoveAll(t)
  }

  lemma {:induction false} RemovingEmpties(html: Forest)
    requires Skeleton(html) == Nil
    ensures AfterAll(html, RemoveAll(html)) == Nil
  {
    match html
    case Nil =>
    case Cons(h, t) =>
      RemovingEmpties(t);
      assert Id(h) != "";
      assert After(html, ToolCall.Remove(Id(h))) == t;
      assert RemoveAll(html)[0] == ToolCall.Remove(Id(h)) && RemoveAll(html)[1..] == RemoveAll(t);
  }

  /**
   * A map can be emptied by tool calls, and so closed to every further one, if and
   * only if all of it stands in elements with ids.
   */
  lemma AMapCanBeEmptiedExactly(html: Forest)
    ensures (exists es :: AfterAll(html, es) == Nil) <==> Skeleton(html) == Nil
  {
    if Skeleton(html) == Nil {
      RemovingEmpties(html);
    } else {
      forall es ensures AfterAll(html, es) != Nil {
        TheSkeletonIsUntouchable(html, es);
      }
    }
  }

  /** Any other map can be added to at the top level, with a valid id not in use. */
  lemma TheTopLevelIsAlwaysOpen(html: Forest, newId: string, content: Forest)
    ensures Call(html, Add(newId, "root", content)).Ok? <==>
              html != Nil && Kebab(newId) && newId != "root" && Count(html, newId) == 0
  {
    if newId != "" {
      FindCounts(html, newId);
    }
  }

  /** The mental-map tools of one agent; the map is the agent's turn state. */
  class MentalMapTools {
    var html: Forest

    method Update(target: string, content: Forest, append: bool) returns (isError: bool)
      modifies this
      ensures html == After(old(html), ToolCall.Update(target, content, append))
      ensures isError <==> old(html) == Nil || Find(old(html), target).None?
      ensures if isError then html == old(html) else Updated(old(html), html, target, content, append)
    {
      if html == Nil {
        return true;
      }
      AnUpdateSetsTheContent(html, target, content, append);
      var result := UpdateElement(html, target, content, append);
      isError := Set(result);
    }

    method Add(newId: string, parent: string, content: Forest) returns (isError: bool)
      modifies this
      ensures html == After(old(html), ToolCall.Add(newId, parent, content))
      ensures isError <==> old(html) == Nil || !CanBeAdded(old(html), newId, parent)
      ensures if isError then html == old(html) else AddedTo(old(html), html, newId, parent, content)
    {
      if html == Nil {
        return true;
      }
      AnAdditionFailsExactly(html, newId, parent, content);
      if AddElement(html, newId, parent, content).Ok? {
        AnAdditionMakesALastChild(html, newId, parent, content);
      }
      var result := AddElement(html, newId, parent, content);
      isError := Set(result);
    }

    method Remove(target: string) returns (isError: bool)
      modifies this
      ensures html == After(old(html), ToolCall.Remove(target))
      ensures isError <==> old(html) == Nil || Find(old(html), target).None?
      ensures if isError then html == old(html) else Removed(old(html), html, target)
    {
      if html == Nil {
        return true;
      }
      ARemovalTakesTheElement(html, target);
      var result := RemoveElement(html, target);
      isError := Set(result);
    }

    method Set(result: Result) returns (isError: bool)
      modifies this
      ensures isError == result.Err?
      ensures html == if result.Ok? then result.html else old(html)
    {
      isError := result.Err?;
      if result.Ok? {
        html := result.html;
      }
    }
  }
}
