/** `createPageUrl` and `cn` (src/utils/index.js). */
module PageUtils {
  import opened Text
  import opened Seqs

  /** A lower-case ASCII letter directly followed by an upper-case one. */
  predicate Boundary(a: char, b: char) {
    IsLowerAscii(a) && IsUpperAscii(b)
  }

  /** `.replace(/([a-z])([A-Z])/g, '$1-$2')`: the scan consumes both
      characters of each match and resumes after them. */
  function InsertHyphens(s: string): string
    decreases |s|
  {
    if |s| < 2 then s
    else if Boundary(s[0], s[1]) then [s[0], '-', s[1]] + InsertHyphens(s[2..])
    else [s[0]] + InsertHyphens(s[1..])
  }

  /** Reference definition: every character, followed by a hyphen exactly
      when it ends in a lower-case letter that an upper-case one follows. */
  function HyphenAtBoundaries(s: string): string
    decreases |s|
  {
    if |s| == 0 then ""
    else [s[0]] + (if |s| >= 2 && Boundary(s[0], s[1]) then "-" else "") + HyphenAtBoundaries(s[1..])
  }

  /** The number of lower/upper boundaries in `s`. */
  function Boundaries(s: string): nat
    decreases |s|
  {
    if |s| < 2 then 0 else (if Boundary(s[0], s[1]) then 1 else 0) + Boundaries(s[1..])
  }

  /** The regex replacement puts a hyphen at every boundary and nowhere
      else: consuming two characters per match misses none, because the
      upper-case letter of a match can never start another. */
  lemma {:induction false} InsertHyphensAtBoundaries(s: string)
    ensures InsertHyphens(s) == HyphenAtBoundaries(s)
    decreases |s|
  {
    if |s| >= 2 {
      if Boundary(s[0], s[1]) {
        InsertHyphensAtBoundaries(s[2..]);
        assert s[1..][1..] == s[2..];
        assert HyphenAtBoundaries(s[1..]) == [s[1]] + HyphenAtBoundaries(s[2..]);
      } else {
        InsertHyphensAtBoundaries(s[1..]);
      }
    }
  }

  /** One hyphen per boundary: the result is that much longer. */
  lemma {:induction false} InsertHyphensLength(s: string)
    ensures |InsertHyphens(s)| == |s| + Boundaries(s)
    decreases |s|
  {
    if |s| >= 2 {
      if Boundary(s[0], s[1]) {
        InsertHyphensLength(s[2..]);
        assert s[1..][1..] == s[2..];
        assert !Boundary(s[1], if |s| > 2 then s[2] else 'A');
        assert Boundaries(s[1..]) == Boundaries(s[2..]);
      } else {
        InsertHyphensLength(s[1..]);
      }
    }
  }

  /** `createPageUrl(pageName)`: "/" followed by the kebab-case name. */
  function CreatePageUrl(pageName: string): (r: string)
    ensures |r| >= 1 && r[0] == '/'
    ensures forall i :: 0 <= i < |r| ==> !IsUpperAscii(r[i])
    ensures r == "/" + ToLower(HyphenAtBoundaries(pageName))
    ensures |r| == 1 + |pageName| + Boundaries(pageName)
  {
    InsertHyphensAtBoundaries(pageName);
    InsertHyphensLength(pageName);
    "/" + ToLower(InsertHyphens(pageName))
  }

  /** Text without boundaries passes through the replacement unchanged. */
  lemma {:induction false} PlainPrefix(p: string, s: string)
    requires NoBoundary(p)
    requires |p| == 0 || |s| == 0 || !Boundary(p[|p| - 1], s[0])
    ensures InsertHyphens(p + s) == p + InsertHyphens(s)
    decreases |p|
  {
    if |p| == 0 {
      assert p + s == s;
    } else {
      NoBoundaryTail(p);
      PlainPrefix(p[1..], s);
      PlainPrefixStep(p, s);
    }
  }

  /** The first character of boundary-free text is copied by itself. */
  lemma PlainPrefixStep(p: string, s: string)
    requires |p| > 0 && NoBoundary(p)
    requires |s| == 0 || !Boundary(p[|p| - 1], s[0])
    requires InsertHyphens(p[1..] + s) == p[1..] + InsertHyphens(s)
    ensures InsertHyphens(p + s) == p + InsertHyphens(s)
  {
    var rest := p[1..] + s;
    assert |rest| == 0 || !Boundary(p[0], rest[0]) by {
      if |p| >= 2 {
        assert rest[0] == p[1] && !Boundary(p[0], p[1]);
      } else if |s| > 0 {
        assert rest[0] == s[0];
      }
    }
    PlainHead(p[0], rest);
    HeadSplit(p, s);
    HeadSplit(p, InsertHyphens(s));
  }

  /** A character that starts no match is copied and the scan moves on. */
  lemma PlainHead(c: char, s: string)
    requires |s| == 0 || !Boundary(c, s[0])
    ensures InsertHyphens([c] + s) == [c] + InsertHyphens(s)
  {
    assert ([c] + s)[1..] == s;
  }

  lemma NoBoundaryTail(p: string)
    requires |p| > 0 && NoBoundary(p)
    ensures NoBoundary(p[1..])
  {
    forall i | 0 <= i < |p[1..]| - 1
      ensures !Boundary(p[1..][i], p[1..][i + 1])
    {
      assert p[1..][i] == p[i + 1] && p[1..][i + 1] == p[i + 2];
    }
  }

  /** A match copies both characters with a hyphen between and the scan
      resumes after them. */
  lemma MatchPair(a: char, b: char, s: string)
    requires Boundary(a, b)
    ensures InsertHyphens([a, b] + s) == [a, '-', b] + InsertHyphens(s)
  {
    assert ([a, b] + s)[2..] == s;
  }

  predicate NoBoundary(s: string) {
    forall i :: 0 <= i < |s| - 1 ==> !Boundary(s[i], s[i + 1])
  }

  /** Two camel-case words make a kebab-case path: "KanbanBoard" gives
      "/kanban-board". */
  lemma CamelPair(a: string, b: string)
    requires |a| >= 1 && |b| >= 1
    requires IsLowerAscii(a[|a| - 1]) && IsUpperAscii(b[0])
    requires NoBoundary(a) && NoBoundary(b)
    ensures CreatePageUrl(a + b) == "/" + ToLower(a) + "-" + ToLower(b)
  {
    CamelHyphens(a, b);
    ToLowerAppend(a + "-", b);
    ToLowerAppend(a, "-");
  }

  /** The one boundary between the words gets the one hyphen. */
  lemma CamelHyphens(a: string, b: string)
    requires |a| >= 1 && |b| >= 1
    requires IsLowerAscii(a[|a| - 1]) && IsUpperAscii(b[0])
    requires NoBoundary(a) && NoBoundary(b)
    ensures InsertHyphens(a + b) == a + "-" + b
  {
    var a', b' := a[..|a| - 1], b[1..];
    NoBoundaryFront(a);
    NoBoundaryTail(b);
    JoinAround(a, b, '-');
    PlainPrefix(a', [a[|a| - 1], b[0]] + b');
    MatchTail(a[|a| - 1], b);
  }

  /** The match at the front of the second word's tail, and then none. */
  lemma MatchTail(x: char, b: string)
    requires |b| >= 1 && Boundary(x, b[0]) && NoBoundary(b[1..])
    ensures InsertHyphens([x, b[0]] + b[1..]) == [x, '-', b[0]] + b[1..]
  {
    MatchPair(x, b[0], b[1..]);
    PlainPrefix(b[1..], "");
    assert b[1..] + "" == b[1..];
  }

  lemma NoBoundaryFront(p: string)
    requires |p| > 0 && NoBoundary(p)
    ensures NoBoundary(p[..|p| - 1])
  {
    var q := p[..|p| - 1];
    forall i | 0 <= i < |q| - 1
      ensures !Boundary(q[i], q[i + 1])
    {
      assert q[i] == p[i] && q[i + 1] == p[i + 1];
    }
  }

  lemma ToLowerAppend(s: string, t: string)
    ensures ToLower(s + t) == ToLower(s) + ToLower(t)
  {
    assert |ToLower(s + t)| == |ToLower(s) + ToLower(t)|;
  }

  /** An argument of `cn(...classes)`: whatever a caller passes. */
  datatype ClassValue = Str(s: string) | Bool(b: bool) | Num(n: int) | Null | Undefined

  /** JavaScript truthiness, as `filter(Boolean)` applies it. */
  predicate Truthy(v: ClassValue) {
    match v
    case Str(s) => s != ""
    case Bool(b) => b
    case Num(n) => n != 0
    case Null => false
    case Undefined => false
  }

  /** The string `join` makes of a kept argument. */
  function Render(v: ClassValue): string {
    match v
    case Str(s) => s
    case Bool(b) => if b then "true" else "false"
    case Num(n) => IntToString(n)
    case _ => ""
  }

  function Kept(classes: seq<ClassValue>): (r: seq<string>)
    ensures |r| <= |classes|
  {
    if |classes| == 0 then []
    else (if Truthy(classes[0]) then [Render(classes[0])] else []) + Kept(classes[1..])
  }

  /** `cn(...classes)`: the truthy arguments joined with single spaces. */
  function Cn(classes: seq<ClassValue>): string {
    Join(Kept(classes), " ")
  }

  /** Falsy arguments leave no trace, not even a space. */
  lemma {:induction false} CnDropsFalsy(classes: seq<ClassValue>)
    requires forall i :: 0 <= i < |classes| ==> !Truthy(classes[i])
    ensures Cn(classes) == ""
    decreases |classes|
  {
    if |classes| > 0 {
      CnDropsFalsy(classes[1..]);
    }
  }

  /** Whatever the mix of arguments, `cn` joins the rendered truthy ones
      with single spaces, in order: a falsy argument between two truthy
      ones adds no separator of its own. */
  lemma CnJoinsTruthy(classes: seq<ClassValue>)
    ensures Cn(classes) == Join(Map(Filter(classes, Truthy), Render), " ")
  {
    KeptIsRenderedTruthy(classes);
  }

  lemma {:induction false} KeptIsRenderedTruthy(classes: seq<ClassValue>)
    ensures Kept(classes) == Map(Filter(classes, Truthy), Render)
    decreases |classes|
  {
    if |classes| > 0 {
      KeptIsRenderedTruthy(classes[1..]);
      var rest := Filter(classes[1..], Truthy);
      if Truthy(classes[0]) {
        MapCons(classes[0], rest, Render);
      }
    }
  }

  function TotalLength(classes: seq<ClassValue>): nat {
    if |classes| == 0 then 0 else |Render(classes[0])| + TotalLength(classes[1..])
  }

  /** For n non-empty string arguments, `cn` is as long as their lengths
      together plus the n - 1 separating spaces. */
  lemma {:induction false} CnLength(classes: seq<ClassValue>)
    requires |classes| > 0
    requires forall i :: 0 <= i < |classes| ==> classes[i].Str? && classes[i].s != ""
    ensures |Cn(classes)| == TotalLength(classes) + |classes| - 1
    decreases |classes|
  {
    if |classes| > 1 {
      CnLength(classes[1..]);
      KeptAllStrings(classes[1..]);
    }
  }

  lemma {:induction false} KeptAllStrings(classes: seq<ClassValue>)
    requires forall i :: 0 <= i < |classes| ==> classes[i].Str? && classes[i].s != ""
    ensures |Kept(classes)| == |classes|
    decreases |classes|
  {
    if |classes| > 0 {
      KeptAllStrings(classes[1..]);
    }
  }
}
