/** The zero-copy JSON walker of internal/jsonscan/scan.go.

    A `char` of a `Text` stands for one byte of the Go string. Each walker is a method with the loops
    of the original, proved equal to a function over the same text; the lemmas about well-formed JSON
    (module JsonText) are about these functions. Nothing here assumes that the text is valid JSON.
 */
module JsonScan {
  import opened Wrappers

  type Text = seq<char>

  predicate IsSpace(c: char) {
    c == ' ' || c == '\t' || c == '\n' || c == '\r'
  }

  /** The first position at or after `i` that does not hold a space. */
  function SpaceEnd(s: Text, i: nat): (j: nat)
    ensures i <= j && (i <= |s| ==> j <= |s|)
    ensures j < |s| ==> !IsSpace(s[j])
    decreases |s| - i
  {
    if i < |s| && IsSpace(s[i]) then SpaceEnd(s, i + 1) else i
  }

  method SkipSpace(s: Text, i: nat) returns (j: nat)
    ensures j == SpaceEnd(s, i)
  {
    j := i;
    while j < |s| && IsSpace(s[j])
      invariant SpaceEnd(s, i) == SpaceEnd(s, j)
    {
      j := j + 1;
    }
  }

  // ----- strings -----

  /** The forward reading of a string body from `j`: `escaped` is true right after an unescaped
      backslash. Yields the position after the first unescaped quote. */
  function BodyEnd(s: Text, j: nat, escaped: bool): (r: Option<nat>)
    ensures r.Some? ==> j < r.value <= |s| && s[r.value - 1] == '"'
    decreases |s| - j
  {
    if j >= |s| then None
    else if escaped then BodyEnd(s, j + 1, false)
    else if s[j] == '"' then Some(j + 1)
    else BodyEnd(s, j + 1, s[j] == '\\')
  }

  /** The end of the string that starts at `i`, read forwards. */
  function StringEnd(s: Text, i: nat): (r: Option<nat>)
    ensures r.Some? ==> i + 1 < r.value <= |s|
  {
    if i < |s| && s[i] == '"' then BodyEnd(s, i + 1, false) else None
  }

  /** The length of the run of backslashes that ends just before `q` and starts no earlier than `j`. */
  function Run(s: Text, j: nat, q: nat): (n: nat)
    requires j <= q <= |s|
    ensures n <= q - j
    decreases q
  {
    if q > j && s[q - 1] == '\\' then 1 + Run(s, j, q - 1) else 0
  }

  /** Between two quotes the forward automaton is in its escaped state exactly when the backslash run
      that ends there has odd length. */
  lemma {:induction false} ParityIsState(s: Text, j: nat, p: nat, q: nat)
    requires j <= p <= q <= |s|
    requires forall k :: j <= k < q ==> s[k] != '"'
    ensures BodyEnd(s, p, Run(s, j, p) % 2 == 1) == BodyEnd(s, q, Run(s, j, q) % 2 == 1)
    decreases q - p
  {
    if p < q {
      assert Run(s, j, p + 1) == if s[p] == '\\' then 1 + Run(s, j, p) else 0;
      ParityIsState(s, j, p + 1, q);
    }
  }

  /** `strings.IndexByte(s[j:], '"')`, as a position in `s`, or `|s|`. */
  method NextQuote(s: Text, j: nat) returns (q: nat)
    requires j <= |s|
    ensures j <= q <= |s|
    ensures q < |s| ==> s[q] == '"'
    ensures forall k :: j <= k < q ==> s[k] != '"'
  {
    q := j;
    while q < |s| && s[q] != '"'
      invariant j <= q <= |s|
      invariant forall k :: j <= k < q ==> s[k] != '"'
    {
      q := q + 1;
    }
  }

  /** `skipString`: jumps from quote to quote and decides each one by counting backslashes backwards. */
  method SkipStringEnd(s: Text, i: nat) returns (end: nat, ok: bool)
    ensures StringEnd(s, i) == if ok then Some(end) else None
  {
    if i >= |s| || s[i] != '"' {
      return 0, false;
    }
    var j := i + 1;
    while j < |s|
      invariant i < j <= |s| && s[j - 1] == '"'
      invariant StringEnd(s, i) == BodyEnd(s, j, false)
    {
      var q := NextQuote(s, j);
      assert BodyEnd(s, j, false) == BodyEnd(s, q, Run(s, j, q) % 2 == 1) by { ParityIsState(s, j, j, q); }
      if q == |s| {
        return 0, false;
      }
      var backslashes := 0;
      var p := q - 1;
      while p > i && s[p] == '\\'
        invariant j - 1 <= p < q
        invariant backslashes == q - 1 - p
        invariant Run(s, j, q) == backslashes + Run(s, j, p + 1)
      {
        backslashes := backslashes + 1;
        p := p - 1;
      }
      if backslashes % 2 == 0 {
        return q + 1, true;
      }
      j := q + 1;
    }
    return 0, false;
  }

  method SkipString(s: Text, i: nat) returns (end: nat, escaped: bool, ok: bool)
    ensures StringEnd(s, i) == if ok then Some(end) else None
    ensures ok ==> i + 1 < end <= |s| && escaped == ('\\' in s[i + 1..end - 1])
  {
    end, ok := SkipStringEnd(s, i);
    if !ok {
      return 0, false, false;
    }
    escaped := '\\' in s[i + 1..end - 1];
  }

  // ----- values -----

  /** The bytes that end an unquoted scalar. */
  predicate IsDelimiter(c: char) {
    c == ',' || c == '}' || c == ']' || c == ':' || IsSpace(c)
  }

  /** From `j`, at nesting depth `depth`, the position after the bracket that brings the depth to 0.
      Both kinds of bracket move the same counter. */
  function CloseEnd(s: Text, j: nat, depth: int): (r: Option<nat>)
    ensures r.Some? ==> j < r.value <= |s|
    decreases |s| - j
  {
    if j >= |s| then None
    else if s[j] == '"' then
      (match StringEnd(s, j)
       case None => None
       case Some(e) => CloseEnd(s, e, depth))
    else if s[j] == '{' || s[j] == '[' then CloseEnd(s, j + 1, depth + 1)
    else if s[j] == '}' || s[j] == ']' then
      if depth - 1 == 0 then Some(j + 1) else CloseEnd(s, j + 1, depth - 1)
    else CloseEnd(s, j + 1, depth)
  }

  /** The first delimiter at or after `j`. */
  function ScalarEnd(s: Text, j: nat): (e: nat)
    requires j <= |s|
    ensures j <= e <= |s|
    decreases |s| - j
  {
    if j < |s| && !IsDelimiter(s[j]) then ScalarEnd(s, j + 1) else j
  }

  function ValueEnd(s: Text, i: nat): (r: Option<nat>)
    ensures r.Some? ==> i < r.value <= |s|
  {
    if i >= |s| then None
    else if s[i] == '"' then StringEnd(s, i)
    else if s[i] == '{' || s[i] == '[' then CloseEnd(s, i, 0)
    else if ScalarEnd(s, i) == i then None
    else Some(ScalarEnd(s, i))
  }

  method SkipValue(s: Text, i: nat) returns (end: nat, ok: bool)
    ensures ValueEnd(s, i) == if ok then Some(end) else None
  {
    if i >= |s| {
      return 0, false;
    }
    if s[i] == '"' {
      end, ok := SkipStringEnd(s, i);
    } else if s[i] == '{' || s[i] == '[' {
      var depth := 0;
      var j := i;
      while j < |s|
        invariant i <= j <= |s|
        invariant CloseEnd(s, i, 0) == CloseEnd(s, j, depth)
      {
        if s[j] == '"' {
          var e, closed := SkipStringEnd(s, j);
          if !closed {
            return 0, false;
          }
          j := e;
          continue;
        } else if s[j] == '{' || s[j] == '[' {
          depth := depth + 1;
        } else if s[j] == '}' || s[j] == ']' {
          depth := depth - 1;
          if depth == 0 {
            return j + 1, true;
          }
        }
        j := j + 1;
      }
      return 0, false;
    } else {
      var j := i;
      while j < |s| && !IsDelimiter(s[j])
        invariant i <= j <= |s|
        invariant ScalarEnd(s, i) == ScalarEnd(s, j)
      {
        j := j + 1;
      }
      if j == i {
        return 0, false;
      }
      return j, true;
    }
  }

  // ----- containers -----

  /** One visited child: `s[vs..ve]` is the value and, in an object, `s[ks..ke]` the key without its
      quotes, `escaped` if that holds a backslash (in an array `ks == ke == vs`). */
  datatype Child = Child(ks: nat, ke: nat, escaped: bool, vs: nat, ve: nat)

  /** What a complete walk over a container meets, in order: children, then the position after the
      closing bracket, or the point where the text breaks off. */
  datatype Walk = Visit(child: Child, rest: Walk) | Done(end: nat) | Broken

  /** The walk that goes on after a child ended at `ve`, if the next child may start at `next`. */
  datatype After = Closed(end: nat) | Next(j: nat) | Garbage

  function AfterChild(s: Text, ve: nat, close: char): (a: After)
    ensures a.Next? ==> ve < a.j
    ensures a.Closed? ==> ve < a.end <= |s|
  {
    var j := SpaceEnd(s, ve);
    if j >= |s| then Garbage
    else if s[j] == ',' then Next(SpaceEnd(s, j + 1))
    else if s[j] == close then Closed(j + 1)
    else Garbage
  }

  function WalkElements(s: Text, j: nat): Walk
    decreases |s| - j
  {
    match ValueEnd(s, j)
    case None => Broken
    case Some(ve) =>
      Visit(Child(j, j, false, j, ve),
            match AfterChild(s, ve, ']')
            case Closed(end) => Done(end)
            case Next(k) => WalkElements(s, k)
            case Garbage => Broken)
  }

  function WalkArray(s: Text, i: nat): Walk {
    if i >= |s| || s[i] != '[' then Broken
    else
      var j := SpaceEnd(s, i + 1);
      if j < |s| && s[j] == ']' then Done(j + 1) else WalkElements(s, j)
  }

  /** The member whose key starts at `j`, if a key, a colon and a value are there. */
  function MemberAt(s: Text, j: nat): (c: Option<Child>)
    ensures c.Some? ==> j < c.value.ks <= c.value.ke < c.value.vs < c.value.ve <= |s|
  {
    match StringEnd(s, j)
    case None => None
    case Some(ke) =>
      var k := SpaceEnd(s, ke);
      if k >= |s| || s[k] != ':' then None
      else
        var vs := SpaceEnd(s, k + 1);
        match ValueEnd(s, vs)
        case None => None
        case Some(ve) => Some(Child(j + 1, ke - 1, '\\' in s[j + 1..ke - 1], vs, ve))
  }

  function WalkMembers(s: Text, j: nat): Walk
    decreases |s| - j
  {
    match MemberAt(s, j)
    case None => Broken
    case Some(c) =>
      Visit(c,
            match AfterChild(s, c.ve, '}')
            case Closed(end) => Done(end)
            case Next(k) => WalkMembers(s, k)
            case Garbage => Broken)
  }

  function WalkObject(s: Text, i: nat): Walk {
    if i >= |s| || s[i] != '{' then Broken
    else
      var j := SpaceEnd(s, i + 1);
      if j < |s| && s[j] == '}' then Done(j + 1) else WalkMembers(s, j)
  }

  /** Every range of the walk lies inside the text, at or after `from` and strictly after the ranges
      before it; so does the end. */
  ghost predicate Ordered(s: Text, from: nat, w: Walk)
    decreases w
  {
    match w
    case Visit(c, rest) => from <= c.ks <= c.ke <= c.vs < c.ve <= |s| && Ordered(s, c.ve, rest)
    case Done(end) => from < end <= |s|
    case Broken => true
  }

  lemma {:induction false} ElementsOrdered(s: Text, j: nat, from: nat)
    requires from <= j
    ensures Ordered(s, from, WalkElements(s, j))
    decreases |s| - j
  {
    if ValueEnd(s, j).Some? {
      var ve := ValueEnd(s, j).value;
      var after := AfterChild(s, ve, ']');
      if after.Next? {
        ElementsOrdered(s, after.j, ve);
      }
    }
  }

  lemma {:induction false} MembersOrdered(s: Text, j: nat, from: nat)
    requires from <= j
    ensures Ordered(s, from, WalkMembers(s, j))
    decreases |s| - j
  {
    if MemberAt(s, j).Some? {
      var ve := MemberAt(s, j).value.ve;
      var after := AfterChild(s, ve, '}');
      if after.Next? {
        MembersOrdered(s, after.j, ve);
      }
    }
  }

  /** On every text, malformed or not, both scanners report increasing, disjoint, in-bounds ranges. */
  lemma WalksOrdered(s: Text, i: nat)
    ensures Ordered(s, i + 1, WalkArray(s, i)) && Ordered(s, i + 1, WalkObject(s, i))
  {
    ElementsOrdered(s, SpaceEnd(s, i + 1), i + 1);
    MembersOrdered(s, SpaceEnd(s, i + 1), i + 1);
  }

  /** A callback: from the captured state, the child's index and the child, the new captured state and
      whether to go on. */
  type Callback<!S> = (S, nat, Child) -> (S, bool)

  /** Calling back on each child of the walk, the next one being number `idx`, until the callback
      declines: the final captured state and the end position, `None` if the scan failed. */
  function Calls<S>(fn: Callback<S>, st: S, w: Walk, idx: nat): (S, Option<nat>)
    decreases w
  {
    match w
    case Done(end) => (st, Some(end))
    case Broken => (st, None)
    case Visit(c, rest) =>
      var (next, more) := fn(st, idx, c);
      if more then Calls(fn, next, rest, idx + 1) else (next, Some(c.ve))
  }

  /** The comma or closing bracket after a child. */
  method SkipSeparator(s: Text, ve: nat, close: char) returns (a: After)
    ensures a == AfterChild(s, ve, close)
  {
    var j := SkipSpace(s, ve);
    if j >= |s| {
      return Garbage;
    }
    if s[j] == ',' {
      j := SkipSpace(s, j + 1);
      return Next(j);
    }
    return if s[j] == close then Closed(j + 1) else Garbage;
  }

  /** `ScanArray`: calls back once per element, in order, until the callback declines. */
  method ScanArray<S>(s: Text, i: nat, st0: S, fn: Callback<S>) returns (st: S, end: nat, ok: bool)
    ensures (st, if ok then Some(end) else None) == Calls(fn, st0, WalkArray(s, i), 0)
  {
    st := st0;
    if i >= |s| || s[i] != '[' {
      return st, 0, false;
    }
    var j := SkipSpace(s, i + 1);
    if j < |s| && s[j] == ']' {
      return st, j + 1, true;
    }
    var idx := 0;
    while true
      invariant Calls(fn, st0, WalkArray(s, i), 0) == Calls(fn, st, WalkElements(s, j), idx)
      decreases |s| - j
    {
      var ve, valued := SkipValue(s, j);
      if !valued {
        return st, 0, false;
      }
      var (next, more) := fn(st, idx, Child(j, j, false, j, ve));
      st := next;
      if !more {
        return st, ve, true;
      }
      var after := SkipSeparator(s, ve, ']');
      match after {
        case Closed(e) => return st, e, true;
        case Garbage => return st, 0, false;
        case Next(k) => j, idx := k, idx + 1;
      }
    }
  }

  /** The key, colon and value of one member of `ScanObject`. */
  method SkipMember(s: Text, j: nat) returns (c: Child, ok: bool)
    ensures MemberAt(s, j) == if ok then Some(c) else None
  {
    c := Child(0, 0, false, 0, 0);
    var ke, escaped, keyed := SkipString(s, j);
    if !keyed {
      return c, false;
    }
    var k := SkipSpace(s, ke);
    if k >= |s| || s[k] != ':' {
      return c, false;
    }
    var vs := SkipSpace(s, k + 1);
    var ve, valued := SkipValue(s, vs);
    if !valued {
      return c, false;
    }
    return Child(j + 1, ke - 1, escaped, vs, ve), true;
  }

  /** `ScanObject`: calls back once per member, in order, until the callback declines. */
  method ScanObject<S>(s: Text, i: nat, st0: S, fn: Callback<S>) returns (st: S, end: nat, ok: bool)
    ensures (st, if ok then Some(end) else None) == Calls(fn, st0, WalkObject(s, i), 0)
  {
    st := st0;
    if i >= |s| || s[i] != '{' {
      return st, 0, false;
    }
    var j := SkipSpace(s, i + 1);
    if j < |s| && s[j] == '}' {
      return st, j + 1, true;
    }
    var idx := 0;
    while true
      invariant Calls(fn, st0, WalkObject(s, i), 0) == Calls(fn, st, WalkMembers(s, j), idx)
      decreases |s| - j
    {
      var c, found := SkipMember(s, j);
      if !found {
        return st, 0, false;
      }
      var (next, more) := fn(st, idx, c);
      st := next;
      if !more {
        return st, c.ve, true;
      }
      var after := SkipSeparator(s, c.ve, '}');
      match after {
        case Closed(e) => return st, e, true;
        case Garbage => return st, 0, false;
        case Next(k) => j, idx := k, idx + 1;
      }
    }
  }

  /** The slice `s[vs..ve]`; the ranges of a walk always have one (WalksOrdered). */
  function Slice(s: Text, vs: nat, ve: nat): Text {
    if vs <= ve <= |s| then s[vs..ve] else []
  }

  predicate Printable(c: char) {
    ' ' <= c < '\U{7F}'
  }
}
