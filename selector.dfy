/**
 * getUniqueSelector (contentScript.js:2-13): a CSS path for an element, built
 * by walking up its parent chain. The chain is given leaf first, as the walk
 * visits it: `chain[0]` is the element itself (the empty chain is a missing
 * element) and each next entry is the parent of the one before; the walk
 * stops at the first entry that is not an element.
 */
module Selector {
  datatype Node = Node(isElement: bool, nodeName: string, id: string, className: string)

  /**
   * The characters JavaScript's `trim` and the regular expression class `\s`
   * treat as white space: tab to carriage return, the space, no-break space,
   * ogham space mark, the en quad to hair space range, line and paragraph
   * separators, narrow no-break space, medium mathematical space, ideographic
   * space and the byte order mark.
   */
  predicate IsSpace(c: char)
  {
    || '\U{0009}' <= c <= '\U{000D}'
    || c == ' ' || c == '\U{00A0}' || c == '\U{1680}'
    || '\U{2000}' <= c <= '\U{200A}'
    || c == '\U{2028}' || c == '\U{2029}' || c == '\U{202F}' || c == '\U{205F}'
    || c == '\U{3000}' || c == '\U{FEFF}'
  }

  function LowerChar(c: char): char
  {
    if 'A' <= c <= 'Z' then (c as int + 32) as char else c
  }

  /** `toLowerCase` on the ASCII letters that element names are made of. */
  function Lower(s: string): (r: string)
    ensures |r| == |s|
    ensures forall i | 0 <= i < |s| :: r[i] == LowerChar(s[i])
  {
    seq(|s|, i requires 0 <= i < |s| => LowerChar(s[i]))
  }

  /** The text after the leading run of white space. */
  function TrimStart(t: string): (r: string)
    ensures |r| <= |t| && r == t[|t| - |r|..]
    ensures forall i | 0 <= i < |t| - |r| :: IsSpace(t[i])
    ensures r == [] || !IsSpace(r[0])
  {
    if t != [] && IsSpace(t[0]) then TrimStart(t[1..]) else t
  }

  /** The text before the trailing run of white space. */
  function TrimEnd(t: string): (r: string)
    ensures |r| <= |t| && r == t[..|r|]
    ensures forall i | |r| <= i < |t| :: IsSpace(t[i])
    ensures r == [] || !IsSpace(r[|r| - 1])
  {
    if t != [] && IsSpace(t[|t| - 1]) then TrimEnd(t[..|t| - 1]) else t
  }

  function Trim(t: string): string
  {
    TrimEnd(TrimStart(t))
  }

  /**
   * Trimming leaves text that neither starts nor ends with white space, and
   * it leaves nothing exactly when the text is white space only.
   */
  lemma TrimBothEnds(t: string)
    ensures var r := Trim(t);
      && |r| <= |t|
      && (r == [] || (!IsSpace(r[0]) && !IsSpace(r[|r| - 1])))
      && (r == [] <==> forall i | 0 <= i < |t| :: IsSpace(t[i]))
  {
    var a := TrimStart(t);
    var r := TrimEnd(a);
    if r != [] {
      assert r[0] == a[0];
    }
  }

  /** `replace(/\s+/g, '.')`: every maximal run of white space becomes one dot. */
  function Collapse(t: string): (r: string)
    ensures |r| <= |t|
    ensures forall i | 0 <= i < |r| :: !IsSpace(r[i])
    ensures (forall i | 0 <= i < |t| :: !IsSpace(t[i])) ==> r == t
    decreases |t|
  {
    if t == [] then []
    else if IsSpace(t[0]) then "." + Collapse(TrimStart(t))
    else [t[0]] + Collapse(t[1..])
  }

  /** The selector for one element: its lower-cased name, then its id, or else its classes. */
  function Segment(n: Node): string
  {
    Lower(n.nodeName)
    + if n.id != [] then "#" + n.id
      else if n.className != [] then "." + Collapse(Trim(n.className))
      else []
  }

  /** The path after the walk has visited `visited` (leaf first): each step puts the new segment in front. */
  function Acc(visited: seq<Node>): string
    decreases |visited|
  {
    if visited == [] then []
    else
      var path := Acc(visited[..|visited| - 1]);
      Segment(visited[|visited| - 1]) + if path != [] then ">" + path else []
  }

  /** How many entries the walk visits: the leading run of elements. */
  function ElementRun(chain: seq<Node>): (n: nat)
    ensures n <= |chain|
    ensures forall i | 0 <= i < n :: chain[i].isElement
    ensures n < |chain| ==> !chain[n].isElement
  {
    if chain != [] && chain[0].isElement then 1 + ElementRun(chain[1..]) else 0
  }

  method UniqueSelector(chain: seq<Node>) returns (path: string)
    ensures path == Acc(chain[..ElementRun(chain)])
  {
    path := [];
    var i := 0;
    while i < |chain| && chain[i].isElement
      invariant 0 <= i <= ElementRun(chain)
      invariant path == Acc(chain[..i])
    {
      assert chain[..i + 1][..i] == chain[..i];
      path := Segment(chain[i]) + if path != [] then ">" + path else [];
      i := i + 1;
    }
  }

  /** Parts joined with `>`. */
  function Join(parts: seq<string>): string
  {
    if |parts| == 0 then []
    else if |parts| == 1 then parts[0]
    else parts[0] + ">" + Join(parts[1..])
  }

  /** The segments of the visited elements, outermost ancestor first. */
  function RootFirst(visited: seq<Node>): (r: seq<string>)
  {
    seq(|visited|, i requires 0 <= i < |visited| => Segment(visited[|visited| - 1 - i]))
  }

  /**
   * The path is the segments of the visited elements, from the outermost
   * ancestor down to the element itself, joined with `>` (element names are
   * never empty).
   */
  lemma {:induction false} AccIsRootFirstJoin(visited: seq<Node>)
    requires forall i | 0 <= i < |visited| :: visited[i].nodeName != []
    ensures Acc(visited) == Join(RootFirst(visited))
  {
    if visited != [] {
      var init := visited[..|visited| - 1];
      var last := visited[|visited| - 1];
      AccIsRootFirstJoin(init);
      var parts := RootFirst(visited);
      assert parts[0] == Segment(last);
      assert parts[1..] == RootFirst(init);
      if init != [] {
        SegmentNonEmpty(init[|init| - 1]);
      }
      JoinCons(parts);
    }
  }

  /** Proof helper: joining puts the first part in front of the join of the rest. */
  lemma JoinCons(parts: seq<string>)
    requires |parts| >= 1 && (|parts| > 1 ==> parts[1] != [])
    ensures Join(parts) == parts[0] + if Join(parts[1..]) != [] then ">" + Join(parts[1..]) else []
  {
    if |parts| > 1 {
      assert Join(parts[1..]) != [] by {
        assert parts[1..][0] == parts[1];
      }
    }
  }

  /** Proof helper: a named element has a non-empty segment. */
  lemma SegmentNonEmpty(n: Node)
    requires n.nodeName != []
    ensures Segment(n) != []
  {
    assert |Segment(n)| >= |Lower(n.nodeName)|;
  }

  /** The class part of a segment never holds white space, whatever the element's class attribute. */
  lemma ClassPartHasNoSpace(n: Node)
    requires n.id == [] && n.className != []
    ensures var s := Segment(n);
            forall i | |n.nodeName| < i < |s| :: !IsSpace(s[i])
  {
    var name := Lower(n.nodeName);
    var classes := Collapse(Trim(n.className));
    var s := Segment(n);
    assert s == name + ("." + classes);
    forall i | |n.nodeName| < i < |s|
      ensures !IsSpace(s[i])
    {
      assert s[i] == classes[i - |name| - 1];
    }
  }

  /** A class attribute of white space only is not empty, so the segment ends in a lone dot. */
  lemma BlankClassLeavesDot(n: Node)
    requires n.id == [] && n.className != []
    requires forall i | 0 <= i < |n.className| :: IsSpace(n.className[i])
    ensures Segment(n) == Lower(n.nodeName) + "."
  {
    assert TrimStart(n.className) == [];
  }

  /** The element's own id shadows its classes, whatever they are. */
  lemma IdShadowsClasses(n: Node, classes: string)
    requires n.id != []
    ensures Segment(n) == Segment(n.(className := classes)) == Lower(n.nodeName) + "#" + n.id
  {
  }

  /**
   * Each maximal run of white space becomes exactly one dot: text without
   * white space is kept, a run is replaced by `.`, and collapsing goes on after
   * the run.
   */
  lemma CollapseRun(a: string, w: string, b: string)
    requires forall i | 0 <= i < |a| :: !IsSpace(a[i])
    requires w != [] && forall i | 0 <= i < |w| :: IsSpace(w[i])
    requires b == [] || !IsSpace(b[0])
    ensures Collapse(a + w + b) == a + "." + Collapse(b)
  {
    var rest, c := w + b, Collapse(b);
    CollapseKeepsPlain(a, rest);
    CollapseRunAtStart(w, b);
    Regroup(a, w, b);
    Regroup(a, ".", c);
  }

  /**
   * Proof helper: regrouping a concatenation. Kept as a lemma so that the
   * solver meets it outside the white-space facts of its callers.
   */
  lemma Regroup(x: string, y: string, z: string)
    ensures x + y + z == x + (y + z)
  {
  }

  /** Text without white space is copied as it is, whatever follows it. */
  lemma {:induction false} CollapseKeepsPlain(a: string, rest: string)
    requires forall i | 0 <= i < |a| :: !IsSpace(a[i])
    ensures Collapse(a + rest) == a + Collapse(rest)
    decreases |a|
  {
    if a == [] {
      assert a + rest == rest;
    } else {
      var head, tail := [a[0]], a[1..];
      assert a == head + tail;
      CollapseKeepsHead(a, rest);
      CollapseKeepsPlain(tail, rest);
      Regroup(head, tail, Collapse(rest));
    }
  }

  /** A run at the very start becomes one dot. */
  lemma CollapseRunAtStart(w: string, b: string)
    requires w != [] && forall i | 0 <= i < |w| :: IsSpace(w[i])
    requires b == [] || !IsSpace(b[0])
    ensures Collapse(w + b) == "." + Collapse(b)
  {
    assert IsSpace((w + b)[0]);
    SpacesTrimmed(w, b);
  }

  /** A first character that is not white space is kept. */
  lemma CollapseKeepsHead(a: string, rest: string)
    requires a != [] && !IsSpace(a[0])
    ensures Collapse(a + rest) == [a[0]] + Collapse(a[1..] + rest)
  {
    assert (a + rest)[0] == a[0] && (a + rest)[1..] == a[1..] + rest;
  }

  /** Dropping the leading white space of a run followed by text that does not start with white space. */
  lemma {:induction false} SpacesTrimmed(w: string, b: string)
    requires forall i | 0 <= i < |w| :: IsSpace(w[i])
    requires b == [] || !IsSpace(b[0])
    ensures TrimStart(w + b) == b
    decreases |w|
  {
    if w == [] {
      assert w + b == b;
    } else {
      assert (w + b)[0] == w[0] && (w + b)[1..] == w[1..] + b;
      SpacesTrimmed(w[1..], b);
    }
  }

  /** On a concrete class list: `"a  b"` becomes `"a.b"`, so the run is replaced, not deleted. */
  lemma CollapseExample()
    ensures Collapse("a  b") == "a.b"
  {
    CollapseRun("a", "  ", "b");
    assert "a" + "  " + "b" == "a  b";
    assert Collapse("b") == "b";
  }
}
