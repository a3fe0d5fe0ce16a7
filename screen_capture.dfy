/** The browser-side screenshot driver of src/proxy/assets/drivers/screen-capture.js:
    the `Screenshot` entry of the shared driver handler table, and the removal of
    the data-URI header from the PNG data URL the canvas produces, which the
    source writes as `str.replace(/^data:[^;]*;base64,/, '')`.

    The regular expression is anchored and not global, so at most one match is
    removed, and only at position 0. `[^;]*` stops at the first `;` after the
    scheme, so a matching header is unique. */
module ScreenCapture {

  datatype Option<T> = None | Some(value: T)

  const Scheme: string := "data:"
  const Marker: string := ";base64,"

  /** The key the handler is registered under. */
  const HandlerKey: string := "Screenshot"

  predicate StartsWith(s: string, prefix: string)
  {
    |prefix| <= |s| && s[..|prefix|] == prefix
  }

  /** `h`, as a whole, is matched by `data:[^;]*;base64,`. */
  predicate IsHeader(h: string)
  {
    && |Scheme| + |Marker| <= |h|
    && h[..|Scheme|] == Scheme
    && h[|h| - |Marker|..] == Marker
    && forall i :: |Scheme| <= i < |h| - |Marker| ==> h[i] != ';'
  }

  /** The scan of `[^;]*` from `from`: the position of the first `;` at or after
      `from`, or `|s|` when there is none. */
  function NextSemicolon(s: string, from: nat): (r: nat)
    requires from <= |s|
    ensures from <= r <= |s|
    ensures forall i :: from <= i < r ==> s[i] != ';'
    ensures r < |s| ==> s[r] == ';'
    decreases |s| - from
  {
    if from == |s| || s[from] == ';' then from else NextSemicolon(s, from + 1)
  }

  /** The length of the header the regular expression matches at the start of
      `s`, if it matches at all. */
  function HeaderLength(s: string): (r: Option<nat>)
    ensures r.Some? ==> r.value <= |s| && IsHeader(s[..r.value])
    ensures !StartsWith(s, Scheme) ==> r == None
  {
    if StartsWith(s, Scheme) then
      var j := NextSemicolon(s, |Scheme|);
      if j + |Marker| <= |s| && s[j..j + |Marker|] == Marker then
        assert s[..j + |Marker|][..|Scheme|] == s[..|Scheme|];
        Some(j + |Marker|)
      else None
    else None
  }

  /** `str.replace(/^data:[^;]*;base64,/, '')`. */
  function StripDataUriHeader(s: string): (r: string)
    ensures |r| <= |s| && r == s[|s| - |r|..]
    ensures !StartsWith(s, Scheme) ==> r == s
  {
    match HeaderLength(s)
    case Some(n) => s[n..]
    case None => s
  }

  /** Any header that `s` starts with is the one `HeaderLength` finds: the match is
      unique, and `HeaderLength` misses none. */
  lemma HeaderLengthComplete(s: string, n: nat)
    requires n <= |s|
    ensures IsHeader(s[..n]) <==> HeaderLength(s) == Some(n)
  {
    if IsHeader(s[..n]) {
      var h := s[..n];
      assert StartsWith(s, Scheme) by {
        assert s[..|Scheme|] == h[..|Scheme|];
      }
      var j := NextSemicolon(s, |Scheme|);
      var semi := n - |Marker|;
      assert s[semi] == h[|h| - |Marker|..][0] == ';';
      assert forall i :: |Scheme| <= i < semi ==> s[i] == h[i];
      assert j == semi;
      assert s[j..j + |Marker|] == h[|h| - |Marker|..];
    }
  }

  /** Two headers at the start of one string are the same header. */
  lemma HeaderUnique(s: string, n1: nat, n2: nat)
    requires n1 <= |s| && n2 <= |s|
    requires IsHeader(s[..n1]) && IsHeader(s[..n2])
    ensures n1 == n2
  {
    HeaderLengthComplete(s, n1);
    HeaderLengthComplete(s, n2);
  }

  /** A string with no header at its start is returned unchanged; one with a
      header loses exactly that header. */
  lemma StripCases(s: string)
    ensures (forall n :: 0 <= n <= |s| ==> !IsHeader(s[..n])) ==> StripDataUriHeader(s) == s
    ensures forall n :: 0 <= n <= |s| && IsHeader(s[..n]) ==> StripDataUriHeader(s) == s[n..]
  {
    forall n | 0 <= n <= |s|
      ensures IsHeader(s[..n]) <==> HeaderLength(s) == Some(n)
    {
      HeaderLengthComplete(s, n);
    }
  }

  /** Stripping `data:<m>;base64,<p>` with no `;` in `m` gives back exactly `p`,
      which is the input shortened by the header's length. */
  lemma StripRoundTrip(m: string, p: string)
    requires forall i :: 0 <= i < |m| ==> m[i] != ';'
    ensures StripDataUriHeader(Scheme + m + Marker + p) == p
    ensures |StripDataUriHeader(Scheme + m + Marker + p)| == |Scheme + m + Marker + p| - |Scheme + m + Marker|
  {
    var h := Scheme + m + Marker;
    var s := h + p;
    assert s[..|h|] == h;
    assert IsHeader(h) by {
      assert h[..|Scheme|] == Scheme;
      assert h[|h| - |Marker|..] == Marker;
      assert forall i :: |Scheme| <= i < |h| - |Marker| ==> h[i] == m[i - |Scheme|];
    }
    HeaderLengthComplete(s, |h|);
    assert s[|h|..] == p;
  }

  /** When the `;` that ends the media type is not followed by `base64,` (a
      `;charset=...` parameter, say), nothing is removed. */
  lemma StripKeepsUnmatchedHeader(m: string, rest: string)
    requires forall i :: 0 <= i < |m| ==> m[i] != ';'
    requires !StartsWith(rest, "base64,")
    ensures StripDataUriHeader(Scheme + m + ";" + rest) == Scheme + m + ";" + rest
  {
    var s := Scheme + m + ";" + rest;
    var semi := |Scheme| + |m|;
    assert s[..|Scheme|] == Scheme;
    assert s[semi] == ';';
    assert forall i :: |Scheme| <= i < semi ==> s[i] == m[i - |Scheme|];
    assert NextSemicolon(s, |Scheme|) == semi;
    assert !(semi + |Marker| <= |s| && s[semi..semi + |Marker|] == Marker) by {
      if semi + |Marker| <= |s| {
        assert s[semi + 1..semi + |Marker|] == rest[..7];
      }
    }
  }

  /** The charset example, split at its first `;`. */
  lemma CharsetSplit()
    ensures "data:text/plain;charset=utf-8;base64,SGk=" == "data:" + "text/plain" + ";" + "charset=utf-8;base64,SGk="
  {
  }

  /** A data URL with a `charset` parameter before `;base64,` is left as it is. */
  lemma CharsetHeaderKept()
    ensures StripDataUriHeader("data:text/plain;charset=utf-8;base64,SGk=") == "data:text/plain;charset=utf-8;base64,SGk="
  {
    var rest := "charset=utf-8;base64,SGk=";
    CharsetSplit();
    assert rest[0] != "base64,"[0];
    StripKeepsUnmatchedHeader("text/plain", rest);
  }

  /** Only a leading header goes: text that does not start with `data:` keeps a
      complete header that follows it. */
  lemma StripKeepsLaterHeader(x: string, m: string, p: string)
    requires x != [] && !StartsWith(x, Scheme)
    ensures StripDataUriHeader(x + Scheme + m + Marker + p) == x + Scheme + m + Marker + p
  {
    var s := x + Scheme + m + Marker + p;
    if |x| < |Scheme| {
      assert s[|x|..|x| + |Scheme|] == Scheme;
      assert s[|x|] == 'd';
    } else {
      assert s[..|Scheme|] == x[..|Scheme|];
    }
  }

  /** The characters `toDataURL` uses for the base64 payload. */
  predicate IsBase64Char(c: char)
  {
    ('A' <= c <= 'Z') || ('a' <= c <= 'z') || ('0' <= c <= '9') || c == '+' || c == '/' || c == '='
  }

  predicate IsBase64(p: string)
  {
    forall i :: 0 <= i < |p| ==> IsBase64Char(p[i])
  }

  /** Stripping a second time changes nothing once the first result holds no `:`. */
  lemma StripIdempotent(s: string)
    requires forall i :: 0 <= i < |StripDataUriHeader(s)| ==> StripDataUriHeader(s)[i] != ':'
    ensures StripDataUriHeader(StripDataUriHeader(s)) == StripDataUriHeader(s)
  {
    var r := StripDataUriHeader(s);
    assert !StartsWith(r, Scheme) by {
      if |Scheme| <= |r| {
        assert r[..|Scheme|][4] == r[4];
      }
    }
  }

  /** The PNG data URL of the canvas: stripping yields the payload, and
      stripping again leaves that payload alone. */
  lemma PngDataUrlStrip(p: string)
    requires IsBase64(p)
    ensures StripDataUriHeader("data:image/png;base64," + p) == p
    ensures StripDataUriHeader(StripDataUriHeader("data:image/png;base64," + p)) == p
  {
    assert "data:image/png;base64," + p == Scheme + "image/png" + Marker + p;
    StripRoundTrip("image/png", p);
    StripIdempotent("data:image/png;base64," + p);
  }

  /** A driver handler: given the data URL the page renders to, its result. The
      rendering itself is outside this model. */
  type DriverHandler = string -> string

  /** The handler table after line 4's assignment: `Screenshot` is the header
      stripper, every other entry is as it was. */
  function WithScreenshot(handlers: map<string, DriverHandler>): (r: map<string, DriverHandler>)
    ensures HandlerKey in r
    ensures forall u :: r[HandlerKey](u) == StripDataUriHeader(u)
    ensures forall k :: k != HandlerKey ==> (k in r <==> k in handlers) && (k in handlers ==> r[k] == handlers[k])
  {
    handlers[HandlerKey := StripDataUriHeader]
  }

  /** The shared `wd` object of the driver scripts. */
  class Wd {
    var handlers: map<string, DriverHandler>

    constructor (handlers: map<string, DriverHandler>)
      ensures this.handlers == handlers
    {
      this.handlers := handlers;
    }

    /** `wd.handlers.Screenshot = function () { ... }`. */
    method RegisterScreenshot()
      modifies this
      ensures handlers == WithScreenshot(old(handlers))
    {
      handlers := handlers[HandlerKey := StripDataUriHeader];
    }
  }
}
