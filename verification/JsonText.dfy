/** JSON texts as trees that remember their white space (sections 2 to 7 of RFC 8259), their printer,
    and the proof that the byte walkers of module JsonScan find exactly the printed parts.

    Two points are wider than RFC 8259, so every valid text is covered: a scalar is any non-empty run
    of bytes that are not structural, and a backslash may be followed by any byte (the validator in
    front of the walkers does not check escapes, jsonrpc/ext.go:101-102).
 */
module JsonText {
  import opened Wrappers
  import opened JsonScan

  datatype Value =
    | Str(content: Text)
    | Scalar(text: Text)
    | Arr(pad: Text, elems: Elems)
    | Obj(pad: Text, members: Members)

  /** `sep` is the space after the comma; it is only printed when another element follows. */
  datatype Elems = NoElem | Elem(value: Value, after: Text, sep: Text, rest: Elems)

  datatype Members =
    | NoMember
    | Member(key: Text, afterKey: Text, pre: Text, value: Value, after: Text, sep: Text, rest: Members)

  function Print(v: Value): Text {
    match v
    case Str(content) => "\"" + content + "\""
    case Scalar(text) => text
    case Arr(pad, elems) => "[" + pad + PrintElems(elems)
    case Obj(pad, members) => "{" + pad + PrintMembers(members)
  }

  /** The text from the first element to the closing bracket. */
  function PrintElems(es: Elems): Text {
    match es
    case NoElem => "]"
    case Elem(v, after, sep, rest) =>
      Print(v) + after + (if rest.NoElem? then "]" else "," + sep + PrintElems(rest))
  }

  function PrintMembers(ms: Members): Text {
    match ms
    case NoMember => "}"
    case Member(key, afterKey, pre, v, after, sep, rest) =>
      "\"" + key + "\"" + afterKey + ":" + pre + Print(v) + after
      + (if rest.NoMember? then "}" else "," + sep + PrintMembers(rest))
  }

  // ----- well-formedness -----

  /** White space as in section 2 of RFC 8259. */
  predicate Spaces(t: Text) {
    forall k :: 0 <= k < |t| ==> t[k] == ' ' || t[k] == '\t' || t[k] == '\n' || t[k] == '\r'
  }

  /** From `k` on, a string body: bytes other than quote and backslash, and pairs of a backslash and
      any byte. */
  predicate IsBody(c: Text, k: nat)
    requires k <= |c|
    decreases |c| - k
  {
    || k == |c|
    || (c[k] == '\\' && k + 2 <= |c| && IsBody(c, k + 2))
    || (c[k] != '\\' && c[k] != '"' && IsBody(c, k + 1))
  }

  /** White space, the six structural characters of section 2 of RFC 8259, and the quote. */
  predicate Structural(c: char) {
    || c == ' ' || c == '\t' || c == '\n' || c == '\r'
    || c == '[' || c == ']' || c == '{' || c == '}' || c == ':' || c == ',' || c == '"'
  }

  predicate IsScalar(t: Text) {
    t != [] && forall k :: 0 <= k < |t| ==> !Structural(t[k])
  }

  predicate Wf(v: Value) {
    match v
    case Str(content) => IsBody(content, 0)
    case Scalar(text) => IsScalar(text)
    case Arr(pad, elems) => Spaces(pad) && WfElems(elems)
    case Obj(pad, members) => Spaces(pad) && WfMembers(members)
  }

  predicate WfElems(es: Elems) {
    match es
    case NoElem => true
    case Elem(v, after, sep, rest) => Wf(v) && Spaces(after) && Spaces(sep) && WfElems(rest)
  }

  predicate WfMembers(ms: Members) {
    match ms
    case NoMember => true
    case Member(key, afterKey, pre, v, after, sep, rest) =>
      && IsBody(key, 0) && Spaces(afterKey) && Spaces(pre) && Wf(v) && Spaces(after) && Spaces(sep)
      && WfMembers(rest)
  }

  // ----- where a value is laid out -----

  /** `t` occurs in `s` at `i`. */
  predicate At(s: Text, i: nat, t: Text) {
    i + |t| <= |s| && forall k {:trigger t[k]} :: 0 <= k < |t| ==> s[i + k] == t[k]
  }

  function Width(v: Value): (n: nat) {
    match v
    case Str(content) => |content| + 2
    case Scalar(text) => |text|
    case Arr(pad, elems) => 1 + |pad| + WidthElems(elems)
    case Obj(pad, members) => 1 + |pad| + WidthMembers(members)
  }

  function WidthElems(es: Elems): nat {
    match es
    case NoElem => 1
    case Elem(v, after, sep, rest) =>
      Width(v) + |after| + 1 + (if rest.NoElem? then 0 else |sep| + WidthElems(rest))
  }

  function WidthKey(m: Members): nat
    requires m.Member?
  {
    |m.key| + 2 + |m.afterKey| + 1 + |m.pre|
  }

  function WidthMembers(ms: Members): nat {
    match ms
    case NoMember => 1
    case Member(_, _, _, v, after, sep, rest) =>
      WidthKey(ms) + Width(v) + |after| + 1 + (if rest.NoMember? then 0 else |sep| + WidthMembers(rest))
  }

  predicate CharAt(s: Text, i: nat, c: char) {
    i < |s| && s[i] == c
  }

  predicate Quoted(s: Text, i: nat, c: Text) {
    CharAt(s, i, '"') && At(s, i + 1, c) && CharAt(s, i + 1 + |c|, '"')
  }

  /** `v` is laid out in `s` from `i`: the same as `At(s, i, Print(v))`, part by part (LaidOut). */
  predicate Occurs(s: Text, i: nat, v: Value)
    decreases v
  {
    match v
    case Str(content) => Quoted(s, i, content)
    case Scalar(text) => At(s, i, text)
    case Arr(pad, elems) => CharAt(s, i, '[') && At(s, i + 1, pad) && OccursElems(s, i + 1 + |pad|, elems)
    case Obj(pad, members) =>
      CharAt(s, i, '{') && At(s, i + 1, pad) && OccursMembers(s, i + 1 + |pad|, members)
  }

  predicate OccursElems(s: Text, j: nat, es: Elems)
    decreases es
  {
    match es
    case NoElem => CharAt(s, j, ']')
    case Elem(v, after, sep, rest) =>
      var k := j + Width(v) + |after|;
      && Occurs(s, j, v) && At(s, j + Width(v), after)
      && if rest.NoElem? then CharAt(s, k, ']')
         else CharAt(s, k, ',') && At(s, k + 1, sep) && OccursElems(s, k + 1 + |sep|, rest)
  }

  predicate OccursKey(s: Text, j: nat, m: Members)
    requires m.Member?
  {
    var k := j + |m.key| + 2;
    && Quoted(s, j, m.key) && At(s, k, m.afterKey)
    && CharAt(s, k + |m.afterKey|, ':') && At(s, k + |m.afterKey| + 1, m.pre)
  }

  predicate OccursMembers(s: Text, j: nat, ms: Members)
    decreases ms
  {
    match ms
    case NoMember => CharAt(s, j, '}')
    case Member(_, _, _, v, after, sep, rest) =>
      var vs := j + WidthKey(ms);
      var k := vs + Width(v) + |after|;
      && OccursKey(s, j, ms) && Occurs(s, vs, v) && At(s, vs + Width(v), after)
      && if rest.NoMember? then CharAt(s, k, '}')
         else CharAt(s, k, ',') && At(s, k + 1, sep) && OccursMembers(s, k + 1 + |sep|, rest)
  }

  // ----- white space and strings -----

  /** Spaces followed by a byte that is not one are skipped exactly. */
  lemma {:induction false} SpacesAt(s: Text, i: nat, ws: Text, k: nat)
    requires Spaces(ws) && At(s, i, ws) && k <= |ws|
    requires i + |ws| < |s| ==> !IsSpace(s[i + |ws|])
    ensures SpaceEnd(s, i + k) == i + |ws|
    decreases |ws| - k
  {
    if k < |ws| {
      assert IsSpace(ws[k]);
      SpacesAt(s, i, ws, k + 1);
    }
  }

  lemma {:induction false} BodyAt(s: Text, j: nat, c: Text, k: nat)
    requires At(s, j, c) && CharAt(s, j + |c|, '"')
    requires k <= |c| && IsBody(c, k)
    ensures BodyEnd(s, j + k, false) == Some(j + |c| + 1)
    decreases |c| - k
  {
    if k < |c| {
      assert s[j + k] == c[k];
      BodyAt(s, j, c, if c[k] == '\\' then k + 2 else k + 1);
    }
  }

  /** Any string body, quoted, is skipped to just after its closing quote. */
  lemma StringAt(s: Text, i: nat, c: Text)
    requires IsBody(c, 0) && Quoted(s, i, c)
    ensures StringEnd(s, i) == Some(i + |c| + 2)
  {
    BodyAt(s, i + 1, c, 0);
  }

  // ----- the depth counter -----

  predicate Inert(t: Text) {
    forall k :: 0 <= k < |t| ==> t[k] != '"' && t[k] != '{' && t[k] != '[' && t[k] != '}' && t[k] != ']'
  }

  /** Bytes that are neither quotes nor brackets do not change the depth. */
  lemma {:induction false} CloseInert(s: Text, j: nat, t: Text, depth: int, k: nat)
    requires At(s, j, t) && Inert(t) && k <= |t|
    ensures CloseEnd(s, j + k, depth) == CloseEnd(s, j + |t|, depth)
    decreases |t| - k
  {
    if k < |t| {
      assert s[j + k] == t[k];
      CloseInert(s, j, t, depth, k + 1);
    }
  }

  lemma CloseSpaces(s: Text, j: nat, ws: Text, depth: int)
    requires Spaces(ws) && At(s, j, ws)
    ensures CloseEnd(s, j, depth) == CloseEnd(s, j + |ws|, depth)
  {
    CloseInert(s, j, ws, depth, 0);
  }

  lemma CloseString(s: Text, j: nat, c: Text, depth: int)
    requires IsBody(c, 0) && Quoted(s, j, c)
    ensures CloseEnd(s, j, depth) == CloseEnd(s, j + |c| + 2, depth)
  {
    StringAt(s, j, c);
  }

  lemma OpenBracket(s: Text, k: nat, depth: int)
    requires CharAt(s, k, '[') || CharAt(s, k, '{')
    ensures CloseEnd(s, k, depth) == CloseEnd(s, k + 1, depth + 1)
  {
  }

  /** Inside a container a whole value leaves the depth as it was, whatever it nests or quotes. */
  lemma {:induction false} CloseValue(s: Text, j: nat, v: Value, depth: int)
    requires Wf(v) && Occurs(s, j, v) && depth >= 1
    ensures CloseEnd(s, j, depth) == CloseEnd(s, j + Width(v), depth)
    decreases v
  {
    hide At, Quoted, Spaces, IsBody, StringEnd, CloseEnd;
    match v
    case Str(content) => CloseString(s, j, content, depth);
    case Scalar(text) => CloseInert(s, j, text, depth, 0);
    case Arr(pad, elems) =>
      OpenBracket(s, j, depth);
      CloseSpaces(s, j + 1, pad, depth + 1);
      CloseElems(s, j + 1 + |pad|, elems, depth + 1);
    case Obj(pad, members) =>
      OpenBracket(s, j, depth);
      CloseSpaces(s, j + 1, pad, depth + 1);
      CloseMembers(s, j + 1 + |pad|, members, depth + 1);
  }

  /** Where a container body whose bracket opened depth `depth` leaves the walker. */
  function Closes(s: Text, end: nat, depth: int): Option<nat> {
    if depth == 1 then Some(end) else CloseEnd(s, end, depth - 1)
  }

  lemma CloseBracket(s: Text, k: nat, depth: int)
    requires CharAt(s, k, ']') || CharAt(s, k, '}')
    ensures CloseEnd(s, k, depth) == Closes(s, k + 1, depth)
  {
  }

  lemma CloseComma(s: Text, k: nat, sep: Text, depth: int)
    requires CharAt(s, k, ',') || CharAt(s, k, ':')
    requires Spaces(sep) && At(s, k + 1, sep)
    ensures CloseEnd(s, k, depth) == CloseEnd(s, k + 1 + |sep|, depth)
  {
    CloseSpaces(s, k + 1, sep, depth);
  }

  lemma {:induction false} CloseElems(s: Text, j: nat, es: Elems, depth: int)
    requires WfElems(es) && OccursElems(s, j, es) && depth >= 1
    ensures CloseEnd(s, j, depth) == Closes(s, j + WidthElems(es), depth)
    decreases es
  {
    hide At, Spaces, Occurs, Wf, CloseEnd, Closes;
    match es
    case NoElem => CloseBracket(s, j, depth);
    case Elem(v, after, sep, rest) =>
      var k := j + Width(v) + |after|;
      CloseValue(s, j, v, depth);
      CloseSpaces(s, j + Width(v), after, depth);
      if rest.NoElem? {
        CloseBracket(s, k, depth);
      } else {
        CloseComma(s, k, sep, depth);
        CloseElems(s, k + 1 + |sep|, rest, depth);
      }
  }

  lemma CloseKey(s: Text, j: nat, m: Members, depth: int)
    requires m.Member? && IsBody(m.key, 0) && Spaces(m.afterKey) && Spaces(m.pre) && OccursKey(s, j, m)
    ensures CloseEnd(s, j, depth) == CloseEnd(s, j + WidthKey(m), depth)
  {
    CloseString(s, j, m.key, depth);
    CloseSpaces(s, j + |m.key| + 2, m.afterKey, depth);
    CloseComma(s, j + |m.key| + 2 + |m.afterKey|, m.pre, depth);
  }

  lemma {:induction false} CloseMembers(s: Text, j: nat, ms: Members, depth: int)
    requires WfMembers(ms) && OccursMembers(s, j, ms) && depth >= 1
    ensures CloseEnd(s, j, depth) == Closes(s, j + WidthMembers(ms), depth)
    decreases ms
  {
    hide At, Spaces, Occurs, OccursKey, Wf, IsBody, CloseEnd, Closes;
    match ms
    case NoMember => CloseBracket(s, j, depth);
    case Member(_, _, _, v, after, sep, rest) =>
      var vs := j + WidthKey(ms);
      var k := vs + Width(v) + |after|;
      CloseKey(s, j, ms, depth);
      CloseValue(s, vs, v, depth);
      CloseSpaces(s, vs + Width(v), after, depth);
      if rest.NoMember? {
        CloseBracket(s, k, depth);
      } else {
        CloseComma(s, k, sep, depth);
        CloseMembers(s, k + 1 + |sep|, rest, depth);
      }
  }

  // ----- SkipValue finds the end of every printed value -----

  lemma {:induction false} ScalarAt(s: Text, j: nat, t: Text, k: nat)
    requires At(s, j, t) && k <= |t| && forall k :: 0 <= k < |t| ==> !Structural(t[k])
    requires j + |t| < |s| ==> IsDelimiter(s[j + |t|])
    ensures ScalarEnd(s, j + k) == j + |t|
    decreases |t| - k
  {
    if k < |t| {
      assert s[j + k] == t[k];
      ScalarAt(s, j, t, k + 1);
    }
  }

  /** The first byte of a laid out value tells its kind and is never a space, comma, colon or closing
      bracket. */
  lemma FirstByte(s: Text, i: nat, v: Value)
    requires Wf(v) && Occurs(s, i, v)
    ensures i < |s| && !IsDelimiter(s[i]) && Width(v) > 0
    ensures v.Str? <==> s[i] == '"'
    ensures v.Arr? <==> s[i] == '['
    ensures v.Obj? <==> s[i] == '{'
  {
    if v.Scalar? {
      assert s[i + 0] == v.text[0];
    }
  }

  /** `SkipValue` on a laid out value ends exactly where the value does. Only an unquoted scalar needs a
      delimiter, or the end of the text, behind it. */
  lemma SkipsValue(s: Text, i: nat, v: Value)
    requires Wf(v) && Occurs(s, i, v)
    requires v.Scalar? && i + Width(v) < |s| ==> IsDelimiter(s[i + Width(v)])
    ensures ValueEnd(s, i) == Some(i + Width(v))
  {
    hide At, Spaces, Quoted, IsBody, CloseEnd, ScalarEnd, StringEnd;
    FirstByte(s, i, v);
    match v
    case Str(content) => StringAt(s, i, content);
    case Scalar(text) => ScalarAt(s, i, text, 0);
    case Arr(pad, elems) =>
      OpenBracket(s, i, 0);
      CloseSpaces(s, i + 1, pad, 1);
      CloseElems(s, i + 1 + |pad|, elems, 1);
    case Obj(pad, members) =>
      OpenBracket(s, i, 0);
      CloseSpaces(s, i + 1, pad, 1);
      CloseMembers(s, i + 1 + |pad|, members, 1);
  }

  // ----- the scanners visit exactly the printed children -----

  /** The range of the child is exactly where `v` is laid out. */
  predicate ShowsValue(s: Text, c: Child, v: Value) {
    Occurs(s, c.vs, v) && c.ve == c.vs + Width(v)
  }

  predicate ShowsKey(s: Text, c: Child, key: Text) {
    At(s, c.ks, key) && c.ke == c.ks + |key| && c.escaped == ('\\' in key)
  }

  /** The walk visits the elements of `es`, each once and in order, and then ends at `end`. */
  predicate ShowsElems(s: Text, w: Walk, es: Elems, end: nat)
    decreases es
  {
    match es
    case NoElem => w == Done(end)
    case Elem(v, _, _, rest) =>
      w.Visit? && ShowsValue(s, w.child, v) && ShowsElems(s, w.rest, rest, end)
  }

  predicate ShowsMembers(s: Text, w: Walk, ms: Members, end: nat)
    decreases ms
  {
    match ms
    case NoMember => w == Done(end)
    case Member(key, _, _, v, _, _, rest) =>
      w.Visit? && ShowsValue(s, w.child, v) && ShowsKey(s, w.child, key) && ShowsMembers(s, w.rest, rest, end)
  }

  lemma ClosedAfter(s: Text, ve: nat, after: Text, close: char)
    requires Spaces(after) && At(s, ve, after) && CharAt(s, ve + |after|, close)
    requires close == ']' || close == '}'
    ensures AfterChild(s, ve, close) == Closed(ve + |after| + 1)
  {
    SpacesAt(s, ve, after, 0);
  }

  lemma NextAfter(s: Text, ve: nat, after: Text, sep: Text, close: char)
    requires Spaces(after) && At(s, ve, after) && CharAt(s, ve + |after|, ',')
    requires Spaces(sep) && At(s, ve + |after| + 1, sep)
    requires ve + |after| + 1 + |sep| < |s| && !IsSpace(s[ve + |after| + 1 + |sep|])
    ensures AfterChild(s, ve, close) == Next(ve + |after| + 1 + |sep|)
  {
    SpacesAt(s, ve, after, 0);
    SpacesAt(s, ve + |after| + 1, sep, 0);
  }

  lemma DelimiterAfter(s: Text, ve: nat, after: Text)
    requires Spaces(after) && At(s, ve, after) && ve + |after| < |s| && IsDelimiter(s[ve + |after|])
    ensures IsDelimiter(s[ve])
  {
    if after != [] {
      assert s[ve + 0] == after[0];
    }
  }

  lemma {:induction false} ElementsShown(s: Text, j: nat, es: Elems)
    requires WfElems(es) && es.Elem? && OccursElems(s, j, es)
    ensures ShowsElems(s, WalkElements(s, j), es, j + WidthElems(es))
    decreases es
  {
    hide At, Spaces, AfterChild, ValueEnd;
    var ve := j + Width(es.value);
    DelimiterAfter(s, ve, es.after);
    SkipsValue(s, j, es.value);
    if es.rest.NoElem? {
      ClosedAfter(s, ve, es.after, ']');
    } else {
      var next := ve + |es.after| + 1 + |es.sep|;
      FirstByte(s, next, es.rest.value);
      NextAfter(s, ve, es.after, es.sep, ']');
      ElementsShown(s, next, es.rest);
    }
  }

  /** The key of a member: its quotes, the colon and the start of the value are found where they are. */
  lemma KeyShown(s: Text, j: nat, m: Members)
    requires m.Member? && IsBody(m.key, 0) && Spaces(m.afterKey) && Spaces(m.pre) && OccursKey(s, j, m)
    requires j + WidthKey(m) < |s| && !IsSpace(s[j + WidthKey(m)])
    ensures var ke := j + |m.key| + 2;
            && StringEnd(s, j) == Some(ke) && s[j + 1..ke - 1] == m.key
            && SpaceEnd(s, ke) == ke + |m.afterKey| && CharAt(s, ke + |m.afterKey|, ':')
            && SpaceEnd(s, ke + |m.afterKey| + 1) == j + WidthKey(m)
  {
    var ke := j + |m.key| + 2;
    StringAt(s, j, m.key);
    SpacesAt(s, ke, m.afterKey, 0);
    SpacesAt(s, ke + |m.afterKey| + 1, m.pre, 0);
  }

  lemma MemberShown(s: Text, j: nat, m: Members)
    requires m.Member? && IsBody(m.key, 0) && Spaces(m.afterKey) && Spaces(m.pre) && OccursKey(s, j, m)
    requires Wf(m.value) && Occurs(s, j + WidthKey(m), m.value)
    requires j + WidthKey(m) + Width(m.value) < |s| && IsDelimiter(s[j + WidthKey(m) + Width(m.value)])
    ensures MemberAt(s, j) == Some(Child(j + 1, j + 1 + |m.key|, '\\' in m.key, j + WidthKey(m),
                                         j + WidthKey(m) + Width(m.value)))
  {
    hide ValueEnd, StringEnd, SpaceEnd, Occurs, Wf, IsBody, Spaces, OccursKey;
    FirstByte(s, j + WidthKey(m), m.value);
    KeyShown(s, j, m);
    SkipsValue(s, j + WidthKey(m), m.value);
  }

  /** One step of the walk over members: the member at `j`, then what follows its value. */
  lemma MemberStep(s: Text, j: nat, m: Members)
    requires m.Member? && WfMembers(m) && OccursMembers(s, j, m)
    ensures WalkMembers(s, j).Visit?
    ensures ShowsKey(s, WalkMembers(s, j).child, m.key) && ShowsValue(s, WalkMembers(s, j).child, m.value)
    ensures WalkMembers(s, j).rest ==
            if m.rest.NoMember? then Done(j + WidthMembers(m))
            else WalkMembers(s, j + WidthMembers(m) - WidthMembers(m.rest))
  {
    hide MemberAt, AfterChild, Wf, Occurs;
    var ve := j + WidthKey(m) + Width(m.value);
    DelimiterAfter(s, ve, m.after);
    MemberShown(s, j, m);
    if m.rest.NoMember? {
      ClosedAfter(s, ve, m.after, '}');
    } else {
      assert CharAt(s, ve + |m.after| + 1 + |m.sep|, '"');
      NextAfter(s, ve, m.after, m.sep, '}');
    }
  }

  lemma {:induction false} MembersShown(s: Text, j: nat, ms: Members)
    requires WfMembers(ms) && ms.Member? && OccursMembers(s, j, ms)
    ensures ShowsMembers(s, WalkMembers(s, j), ms, j + WidthMembers(ms))
    decreases ms
  {
    hide WalkMembers, MemberAt, AfterChild, Wf, Occurs, OccursKey;
    MemberStep(s, j, ms);
    if ms.rest.Member? {
      MembersShown(s, j + WidthMembers(ms) - WidthMembers(ms.rest), ms.rest);
    }
  }

  /** `ScanArray` on a laid out array calls back once per element, in order, with ranges that slice out
      exactly the elements, and ends just past the closing bracket. */
  lemma ArrayShown(s: Text, i: nat, v: Value)
    requires v.Arr? && Wf(v) && Occurs(s, i, v)
    ensures ShowsElems(s, WalkArray(s, i), v.elems, i + Width(v))
  {
    hide At, Spaces, WalkElements;
    if v.elems.Elem? {
      FirstByte(s, i + 1 + |v.pad|, v.elems.value);
      ElementsShown(s, i + 1 + |v.pad|, v.elems);
    }
    SpacesAt(s, i + 1, v.pad, 0);
  }

  /** `ScanObject` on a laid out object, likewise, with the raw keys and whether they hold a backslash. */
  lemma ObjectShown(s: Text, i: nat, v: Value)
    requires v.Obj? && Wf(v) && Occurs(s, i, v)
    ensures ShowsMembers(s, WalkObject(s, i), v.members, i + Width(v))
  {
    hide At, Spaces, WalkMembers;
    if v.members.Member? {
      MembersShown(s, i + 1 + |v.pad|, v.members);
    }
    SpacesAt(s, i + 1, v.pad, 0);
  }

  // ----- the layout is the printed text -----

  lemma AtConcat(s: Text, i: nat, a: Text, b: Text)
    ensures At(s, i, a + b) <==> At(s, i, a) && At(s, i + |a|, b)
  {
    var t := a + b;
    assert forall k {:trigger a[k]} :: 0 <= k < |a| ==> t[k] == a[k];
    assert forall k {:trigger b[k]} :: 0 <= k < |b| ==> t[|a| + k] == b[k];
    if At(s, i, t) {
      forall k | 0 <= k < |b| ensures s[i + |a| + k] == b[k] {
        assert t[|a| + k] == b[k];
      }
    }
  }

  lemma AtChar(s: Text, i: nat, c: char)
    ensures At(s, i, [c]) <==> CharAt(s, i, c)
  {
    if At(s, i, [c]) {
      assert s[i + 0] == [c][0];
    }
  }

  lemma LaidOutString(s: Text, i: nat, c: Text)
    ensures Quoted(s, i, c) <==> At(s, i, "\"" + c + "\"")
  {
    hide At;
    AtConcat(s, i, "\"" + c, "\"");
    AtConcat(s, i, "\"", c);
    AtChar(s, i, '"');
    AtChar(s, i + 1 + |c|, '"');
  }

  lemma LaidOutKey(s: Text, j: nat, m: Members)
    requires m.Member?
    ensures OccursKey(s, j, m) <==> At(s, j, "\"" + m.key + "\"" + m.afterKey + ":" + m.pre)
  {
    hide At, Quoted;
    var quoted := "\"" + m.key + "\"";
    AtConcat(s, j, quoted + m.afterKey + ":", m.pre);
    AtConcat(s, j, quoted + m.afterKey, ":");
    AtConcat(s, j, quoted, m.afterKey);
    LaidOutString(s, j, m.key);
    AtChar(s, j + |quoted| + |m.afterKey|, ':');
  }

  /** A value is laid out at a position exactly when its printed text stands there. */
  lemma {:induction false} LaidOut(s: Text, i: nat, v: Value)
    ensures Width(v) == |Print(v)|
    ensures Occurs(s, i, v) <==> At(s, i, Print(v))
    decreases v
  {
    hide At, Quoted, CharAt;
    match v
    case Str(content) => LaidOutString(s, i, content);
    case Scalar(_) =>
    case Arr(pad, elems) =>
      LaidOutElems(s, i + 1 + |pad|, elems);
      AtConcat(s, i, "[" + pad, PrintElems(elems));
      AtConcat(s, i, "[", pad);
      AtChar(s, i, '[');
    case Obj(pad, members) =>
      LaidOutMembers(s, i + 1 + |pad|, members);
      AtConcat(s, i, "{" + pad, PrintMembers(members));
      AtConcat(s, i, "{", pad);
      AtChar(s, i, '{');
  }

  lemma {:induction false} LaidOutElems(s: Text, j: nat, es: Elems)
    ensures WidthElems(es) == |PrintElems(es)|
    ensures OccursElems(s, j, es) <==> At(s, j, PrintElems(es))
    decreases es
  {
    hide At, CharAt;
    match es
    case NoElem => AtChar(s, j, ']');
    case Elem(v, after, sep, rest) =>
      var k := j + Width(v) + |after|;
      var tail := if rest.NoElem? then "]" else "," + sep + PrintElems(rest);
      LaidOut(s, j, v);
      AtConcat(s, j, Print(v) + after, tail);
      AtConcat(s, j, Print(v), after);
      LaidOutTail(s, k, sep, if rest.NoElem? then ']' else ',', PrintElems(rest));
      LaidOutElems(s, k + 1 + |sep|, rest);
  }

  lemma {:induction false} LaidOutMembers(s: Text, j: nat, ms: Members)
    ensures WidthMembers(ms) == |PrintMembers(ms)|
    ensures OccursMembers(s, j, ms) <==> At(s, j, PrintMembers(ms))
    decreases ms
  {
    hide At, CharAt, OccursKey;
    match ms
    case NoMember => AtChar(s, j, '}');
    case Member(key, afterKey, pre, v, after, sep, rest) =>
      var vs := j + WidthKey(ms);
      var k := vs + Width(v) + |after|;
      var tail := if rest.NoMember? then "}" else "," + sep + PrintMembers(rest);
      var head := "\"" + key + "\"" + afterKey + ":" + pre;
      LaidOutKey(s, j, ms);
      LaidOut(s, vs, v);
      AtConcat(s, j, head + Print(v) + after, tail);
      AtConcat(s, j, head + Print(v), after);
      AtConcat(s, j, head, Print(v));
      LaidOutTail(s, k, sep, if rest.NoMember? then '}' else ',', PrintMembers(rest));
      LaidOutMembers(s, k + 1 + |sep|, rest);
  }

  lemma LaidOutTail(s: Text, k: nat, sep: Text, c: char, text: Text)
    ensures At(s, k, [c] + sep + text) <==> CharAt(s, k, c) && At(s, k + 1, sep) && At(s, k + 1 + |sep|, text)
    ensures At(s, k, [c]) <==> CharAt(s, k, c)
  {
    AtConcat(s, k, [c] + sep, text);
    AtConcat(s, k, [c], sep);
    AtChar(s, k, c);
  }

  /** The text of a laid out value, sliced out, is its printed form. */
  lemma SliceIsPrint(s: Text, i: nat, v: Value)
    requires Occurs(s, i, v)
    ensures Width(v) == |Print(v)| && i + Width(v) <= |s| && s[i..i + Width(v)] == Print(v)
  {
    LaidOut(s, i, v);
    var t := Print(v);
    forall k | 0 <= k < |t| ensures s[i..i + |t|][k] == t[k] {
      assert s[i + k] == t[k];
    }
  }

  /** `SkipValue` started at a printed value returns exactly its end, for every tree, every white space,
      every text before it and every text after it (which starts with a delimiter, or is empty, when the
      value is an unquoted scalar). */
  lemma SkipsPrinted(before: Text, v: Value, following: Text)
    requires Wf(v) && (v.Scalar? && following != [] ==> Structural(following[0]) && following[0] !in {'[', '{', '"'})
    ensures ValueEnd(before + Print(v) + following, |before|) == Some(|before| + |Print(v)|)
  {
    var s := before + Print(v) + following;
    LaidOut(s, |before|, v);
    SkipsValue(s, |before|, v);
  }

  // ----- scalars -----

  predicate Digits(t: Text) {
    t != [] && forall k :: 0 <= k < |t| ==> '0' <= t[k] <= '9'
  }

  /** Numbers as in section 6 of RFC 8259; an absent part is `None`. */
  datatype JsonNumber = JsonNumber(minus: bool, whole: Text, frac: Option<Text>, exp: Option<(char, Text, Text)>)

  predicate WfNumber(n: JsonNumber) {
    && Digits(n.whole) && (n.whole[0] == '0' ==> |n.whole| == 1)
    && (n.frac.Some? ==> Digits(n.frac.value))
    && (n.exp.Some? ==>
          n.exp.value.0 in {'e', 'E'} && n.exp.value.1 in {"", "+", "-"} && Digits(n.exp.value.2))
  }

  function PrintNumber(n: JsonNumber): Text {
    (if n.minus then "-" else "") + n.whole
    + (if n.frac.Some? then "." + n.frac.value else "")
    + (if n.exp.Some? then [n.exp.value.0] + n.exp.value.1 + n.exp.value.2 else "")
  }

  predicate Inside(t: Text) {
    forall k :: 0 <= k < |t| ==> !Structural(t[k])
  }

  lemma InsidePlus(a: Text, b: Text)
    requires Inside(a) && Inside(b)
    ensures Inside(a + b)
  {
  }

  /** Every number and every literal of RFC 8259 is a scalar of these trees. */
  lemma JsonScalars(n: JsonNumber)
    requires WfNumber(n)
    ensures IsScalar(PrintNumber(n)) && IsScalar("true") && IsScalar("false") && IsScalar("null")
  {
    var sign := if n.minus then "-" else "";
    var frac := if n.frac.Some? then "." + n.frac.value else "";
    var exp := if n.exp.Some? then [n.exp.value.0] + n.exp.value.1 + n.exp.value.2 else "";
    InsidePlus(sign, n.whole);
    InsidePlus(sign + n.whole, frac);
    InsidePlus(sign + n.whole + frac, exp);
  }
}
