/** The response pre-filter `ContainsErrorKey` of jsonrpc/ext.go. */
module ResponseFilter {
  import opened JsonScan

  /** The bytes `rror"` at `i`. */
  predicate SuffixAt(s: Text, i: nat) {
    i + 5 <= |s| && s[i] == 'r' && s[i + 1] == 'r' && s[i + 2] == 'o' && s[i + 3] == 'r' && s[i + 4] == '"'
  }

  /** The token "error" or "Error", in quotes, at `k`. */
  predicate TokenAt(s: Text, k: nat) {
    k + 7 <= |s| && s[k] == '"' && (s[k + 1] == 'e' || s[k + 1] == 'E') && SuffixAt(s, k + 2)
  }

  ghost predicate HasErrorKey(s: Text) {
    exists k: nat :: TokenAt(s, k)
  }

  /** `bytes.Index(msg[offset:], suffix)`, as a position, or the length. */
  method IndexSuffix(msg: Text, offset: nat) returns (i: nat)
    requires offset <= |msg|
    ensures offset <= i <= |msg| && (i < |msg| ==> SuffixAt(msg, i))
    ensures forall k :: offset <= k < i ==> !SuffixAt(msg, k)
  {
    i := offset;
    while i < |msg| && !SuffixAt(msg, i)
      invariant offset <= i <= |msg|
      invariant forall k :: offset <= k < i ==> !SuffixAt(msg, k)
    {
      i := i + 1;
    }
  }

  /** True exactly when the body contains one of the two quoted tokens. Going on five bytes after a
      rejected suffix misses nothing: no other suffix starts within those bytes. */
  method ContainsErrorKey(msg: Text) returns (found: bool)
    ensures found <==> HasErrorKey(msg)
  {
    var offset := 0;
    while offset < |msg|
      invariant offset <= |msg|
      invariant forall k: nat :: TokenAt(msg, k) ==> offset <= k + 2
    {
      var i := IndexSuffix(msg, offset);
      if i == |msg| {
        return false;
      }
      if i >= 2 && msg[i - 2] == '"' && (msg[i - 1] == 'e' || msg[i - 1] == 'E') {
        assert TokenAt(msg, i - 2);
        return true;
      }
      forall k: nat | TokenAt(msg, k) ensures i + 5 <= k + 2 {
        assert SuffixAt(msg, k + 2);
      }
      offset := i + 5;
    }
    return false;
  }

  predicate NoQuote(s: Text) {
    forall k :: 0 <= k < |s| ==> s[k] != '"'
  }

  /** `trimmed` is `body` without some leading and trailing bytes that are not quotes, as trimming white
      space leaves it. */
  ghost predicate TrimOf(body: Text, trimmed: Text) {
    exists a, b :: body == a + trimmed + b && NoQuote(a) && NoQuote(b)
  }

  /** The filter gives the same answer on the trimmed and on the untrimmed body. */
  lemma TrimKeepsErrorKey(body: Text, trimmed: Text)
    requires TrimOf(body, trimmed)
    ensures HasErrorKey(body) <==> HasErrorKey(trimmed)
  {
    var a, b :| body == a + trimmed + b && NoQuote(a) && NoQuote(b);
    if k: nat :| TokenAt(body, k) {
      TokenInside(a, trimmed, b, k);
    }
    if k: nat :| TokenAt(trimmed, k) {
      TokenOutside(a, trimmed, b, k);
    }
  }

  /** A token begins and ends with a quote, so none begins or ends in text without quotes. */
  lemma TokenInside(a: Text, t: Text, b: Text, k: nat)
    requires NoQuote(a) && NoQuote(b) && TokenAt(a + t + b, k)
    ensures k >= |a| && TokenAt(t, k - |a|)
  {
    assert k >= |a| && k + 6 < |a| + |t|;
  }

  lemma TokenOutside(a: Text, t: Text, b: Text, k: nat)
    requires TokenAt(t, k)
    ensures TokenAt(a + t + b, |a| + k)
  {
  }

  predicate TextAt(s: Text, k: nat, t: Text) {
    k + |t| <= |s| && s[k..k + |t|] == t
  }

  ghost predicate Contains(s: Text, t: Text) {
    exists k: nat :: TextAt(s, k, t)
  }

  /** The two tokens, spelled out. */
  lemma ErrorTokens(s: Text)
    ensures HasErrorKey(s) <==> Contains(s, "\"error\"") || Contains(s, "\"Error\"")
  {
    if k: nat :| TokenAt(s, k) {
      assert TextAt(s, k, "\"error\"") || TextAt(s, k, "\"Error\"");
    }
    if k: nat :| TextAt(s, k, "\"error\"") || TextAt(s, k, "\"Error\"") {
      var t := s[k..k + 7];
      assert t[0] == s[k] && t[1] == s[k + 1] && t[2] == s[k + 2] && t[3] == s[k + 3];
      assert t[4] == s[k + 4] && t[5] == s[k + 5] && t[6] == s[k + 6];
      assert TokenAt(s, k);
    }
  }
}
