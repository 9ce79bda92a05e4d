/** An optional value, standing for a JavaScript value that may be `null`/`undefined`. */
module Wrappers {

  datatype Option<+T> = None | Some(value: T) {

    /** The value if present, otherwise `default` (JavaScript's `x || default` on an absent `x`). */
    function GetOr(default: T): T {
      match this
      case Some(v) => v
      case None => default
    }
  }
}

/**
 * The string primitives the screens rely on: `String.prototype.trim`,
 * `toLowerCase`, `toUpperCase` on one character, `startsWith`, and the
 * decimal rendering of an integer inside a template literal.
 */
module Text {
  import opened Wrappers

  /** The whitespace that `trim` removes, fixed here to the ASCII white space, NBSP and BOM. */
  predicate IsSpace(c: char) {
    c == ' ' || c == '\t' || c == '\n' || c == '\r' || c == '\U{000B}' || c == '\U{000C}'
    || c == '\U{00A0}' || c == '\U{FEFF}'
  }

  predicate AllSpace(s: string) {
    forall i :: 0 <= i < |s| ==> IsSpace(s[i])
  }

  /** Neither starts nor ends with whitespace. */
  predicate Trimmed(s: string) {
    s == [] || (!IsSpace(s[0]) && !IsSpace(s[|s| - 1]))
  }

  /**
   * `s.trim()`: drops whitespace from both ends.  The result is blank iff `s`
   * is all whitespace, and never begins or ends with whitespace.
   */
  function Trim(s: string): (r: string)
    ensures |r| <= |s|
    ensures Trimmed(r)
    ensures r == [] <==> AllSpace(s)
    decreases |s|
  {
    if |s| > 0 && IsSpace(s[0]) then
      assert AllSpace(s) <==> AllSpace(s[1..]) by {
        if AllSpace(s[1..]) {
          forall i | 0 <= i < |s| ensures IsSpace(s[i]) {
            if i > 0 { assert s[i] == s[1..][i - 1]; }
          }
        }
      }
      Trim(s[1..])
    else if |s| > 0 && IsSpace(s[|s| - 1]) then
      assert s[..|s| - 1][0] == s[0];
      Trim(s[..|s| - 1])
    else
      s
  }

  lemma AllSpaceAppend(a: string, b: string)
    requires AllSpace(a) && AllSpace(b)
    ensures AllSpace(a + b)
  {
    forall i | 0 <= i < |a + b| ensures IsSpace((a + b)[i]) {
      if i < |a| {
        assert (a + b)[i] == a[i];
      } else {
        assert (a + b)[i] == b[i - |a|];
      }
    }
  }

  /** A whitespace-framed span of `s[1..]` is one of `s` when `s[0]` is whitespace. */
  lemma SpanAfterSpace(s: string, j: nat, n: nat)
    requires |s| > 0 && IsSpace(s[0]) && j + n <= |s| - 1
    requires AllSpace(s[1..][..j]) && AllSpace(s[1..][j + n..])
    ensures s[j + 1..j + 1 + n] == s[1..][j..j + n]
    ensures AllSpace(s[..j + 1]) && AllSpace(s[j + 1 + n..])
  {
    assert s[..j + 1] == [s[0]] + s[1..][..j];
    AllSpaceAppend([s[0]], s[1..][..j]);
    assert s[j + 1 + n..] == s[1..][j + n..];
    var span, inner := s[j + 1..j + 1 + n], s[1..][j..j + n];
    forall k | 0 <= k < n ensures span[k] == inner[k] {
      assert span[k] == s[j + 1 + k] == s[1..][j + k];
    }
    assert span == inner;
  }

  /** A whitespace-framed span of `s[..|s| - 1]` is one of `s` when `s`'s last character is whitespace. */
  lemma SpanBeforeSpace(s: string, i: nat, n: nat)
    requires |s| > 0 && IsSpace(s[|s| - 1]) && i + n <= |s| - 1
    requires AllSpace(s[..|s| - 1][..i]) && AllSpace(s[..|s| - 1][i + n..])
    ensures s[i..i + n] == s[..|s| - 1][i..i + n]
    ensures AllSpace(s[..i]) && AllSpace(s[i + n..])
  {
    var t := s[..|s| - 1];
    assert s[..i] == t[..i];
    assert s[i + n..] == t[i + n..] + [s[|s| - 1]];
    AllSpaceAppend(t[i + n..], [s[|s| - 1]]);
  }

  /** Conversely, the trim of `s` sits at some position `i` of `s` with only whitespace around it. */
  lemma {:induction false} TrimSpan(s: string) returns (i: nat)
    ensures i + |Trim(s)| <= |s|
    ensures s[i..i + |Trim(s)|] == Trim(s)
    ensures AllSpace(s[..i]) && AllSpace(s[i + |Trim(s)|..])
    decreases |s|
  {
    var r := Trim(s);
    if |s| > 0 && IsSpace(s[0]) {
      var t := s[1..];
      assert r == Trim(t);
      var j := TrimSpan(t);
      SpanAfterSpace(s, j, |r|);
      i := j + 1;
    } else if |s| > 0 && IsSpace(s[|s| - 1]) {
      var t := s[..|s| - 1];
      assert r == Trim(t);
      i := TrimSpan(t);
      SpanBeforeSpace(s, i, |r|);
    } else {
      i := 0;
      assert r == s;
      assert s[..0] == [] && s[0..|s|] == s && s[|s|..] == [];
    }
  }

  /**
   * Trimming is exactly the removal of surrounding whitespace: a trimmed core
   * padded on both sides with whitespace trims back to the core.
   */
  lemma {:induction false} TrimPadding(p: string, t: string, q: string)
    requires AllSpace(p) && AllSpace(q) && Trimmed(t)
    ensures Trim(p + t + q) == t
    decreases |p| + |q|
  {
    var s := p + t + q;
    if p != [] {
      assert s[0] == p[0];
      assert s[1..] == p[1..] + t + q;
      TrimPadding(p[1..], t, q);
    } else if q != [] && t == [] {
      assert s == q;
      assert s[1..] == [] + [] + q[1..];
      TrimPadding([], [], q[1..]);
    } else if q != [] {
      assert s == t + q;
      assert s[0] == t[0];
      assert s[|s| - 1] == q[|q| - 1];
      assert s[..|s| - 1] == [] + t + q[..|q| - 1];
      TrimPadding([], t, q[..|q| - 1]);
    } else {
      assert s == t;
    }
  }

  /** A string without surrounding whitespace is its own trim. */
  lemma TrimIdempotentOnTrimmed(t: string)
    requires Trimmed(t)
    ensures Trim(t) == t
  {
    assert [] + t + [] == t;
    TrimPadding([], t, []);
  }

  /** Trimming twice is trimming once. */
  lemma TrimIdempotent(s: string)
    ensures Trim(Trim(s)) == Trim(s)
  {
    TrimIdempotentOnTrimmed(Trim(s));
  }

  /** ASCII case mapping of one character (other characters are left alone). */
  function LowerChar(c: char): char {
    if 'A' <= c <= 'Z' then (c as int + 32) as char else c
  }

  function UpperChar(c: char): char {
    if 'a' <= c <= 'z' then (c as int - 32) as char else c
  }

  /** `s.toLowerCase()`, character by character. */
  function Lower(s: string): (r: string)
    ensures |r| == |s|
    ensures forall i :: 0 <= i < |s| ==> r[i] == LowerChar(s[i])
  {
    if s == [] then [] else [LowerChar(s[0])] + Lower(s[1..])
  }

  /** `s.charAt(0).toUpperCase() + s.slice(1)`. */
  function UpperFirst(s: string): (r: string)
    ensures |r| == |s|
    ensures s != [] ==> r[0] == UpperChar(s[0]) && r[1..] == s[1..]
  {
    if s == [] then [] else [UpperChar(s[0])] + s[1..]
  }

  /** `s.startsWith(p)`. */
  predicate StartsWith(s: string, p: string): (b: bool)
    ensures b <==> |p| <= |s| && forall i :: 0 <= i < |p| ==> s[i] == p[i]
  {
    |p| <= |s| && s[..|p|] == p
  }

  predicate IsDigit(c: char) {
    '0' <= c <= '9'
  }

  predicate AllDigits(s: string) {
    forall i :: 0 <= i < |s| ==> IsDigit(s[i])
  }

  function DigitChar(d: nat): (c: char)
    requires d < 10
  {
    ('0' as int + d) as char
  }

  /** Decimal digits of a natural number, most significant first, without leading zeros. */
  function NatToString(n: nat): (r: string)
    ensures r != [] && AllDigits(r)
    ensures r[0] == '0' <==> n == 0
    ensures |r| > 1 ==> r[0] != '0'
  {
    if n < 10 then [DigitChar(n)]
    else
      var high := NatToString(n / 10);
      assert (high + [DigitChar(n % 10)])[0] == high[0];
      high + [DigitChar(n % 10)]
  }

  /** `${i}` for an integer `i`. */
  function IntToString(i: int): (r: string)
    ensures r != []
  {
    if i < 0 then "-" + NatToString(-i) else NatToString(i)
  }

  /** Drops the leading whitespace, as `parseInt` does before reading a number. */
  function SkipSpace(s: string): (r: string)
    ensures |r| <= |s| && r == s[|s| - |r|..]
    ensures AllSpace(s[..|s| - |r|])
    ensures r == [] || !IsSpace(r[0])
  {
    if |s| > 0 && IsSpace(s[0]) then
      var r := SkipSpace(s[1..]);
      assert s[..|s| - |r|] == [s[0]] + s[1..][..|s| - 1 - |r|];
      r
    else
      s
  }

  /** The leading digits of `u` read left to right onto `acc`, stopping at the first non-digit. */
  function ReadDigits(u: string, acc: nat): nat {
    if u != [] && IsDigit(u[0]) then ReadDigits(u[1..], acc * 10 + (u[0] as int - '0' as int)) else acc
  }

  /** The number spelled by the leading digits of `u`, or None when `u` does not start with a digit. */
  function ParseDigits(u: string): (r: Option<int>)
    ensures r.Some? ==> u != [] && IsDigit(u[0]) && r.value >= 0
  {
    if u != [] && IsDigit(u[0]) then Some(ReadDigits(u, 0)) else None
  }

  /** An optional sign, then the leading digits. */
  function ParseSigned(t: string): (r: Option<int>)
    ensures r.Some? ==> exists i :: 0 <= i < |t| && IsDigit(t[i])
    ensures r.Some? && r.value < 0 ==> t != [] && t[0] == '-'
  {
    if t != [] && t[0] == '-' then
      match ParseDigits(t[1..])
      case None => None
      case Some(v) => Some(-v)
    else if t != [] && t[0] == '+' then ParseDigits(t[1..])
    else ParseDigits(t)
  }

  /**
   * `parseInt(s)` in base 10: leading whitespace, an optional sign, then the
   * longest run of digits; None stands for NaN, when there is no digit.
   */
  function ParseInt(s: string): (r: Option<int>)
    ensures r.Some? ==> exists i :: 0 <= i < |s| && IsDigit(s[i])
  {
    var t := SkipSpace(s);
    var off := |s| - |t|;
    assert forall j :: 0 <= j < |t| ==> t[j] == s[off + j];
    ParseSigned(t)
  }

  /** A negative number is read only after a '-' that the leading whitespace runs up to. */
  lemma ParseIntNegative(s: string)
    requires ParseInt(s).Some? && ParseInt(s).value < 0
    ensures exists k :: 0 <= k < |s| && s[k] == '-' && AllSpace(s[..k])
  {
    var t := SkipSpace(s);
    var k := |s| - |t|;
    assert s[k] == t[0];
  }

  /** Reading a run of digits and then more text is reading the text on top of the run's value. */
  lemma {:induction false} ReadDigitsAppend(d: string, rest: string, acc: nat)
    requires AllDigits(d)
    ensures ReadDigits(d + rest, acc) == ReadDigits(rest, ReadDigits(d, acc))
  {
    if d != [] {
      assert (d + rest)[0] == d[0];
      assert (d + rest)[1..] == d[1..] + rest;
      ReadDigitsAppend(d[1..], rest, acc * 10 + (d[0] as int - '0' as int));
    } else {
      assert d + rest == rest;
    }
  }

  /** The digits of `NatToString(n)` read back as `n`. */
  lemma {:induction false} ReadNatToString(n: nat)
    ensures ReadDigits(NatToString(n), 0) == n
  {
    if n >= 10 {
      var d := NatToString(n / 10);
      ReadNatToString(n / 10);
      ReadDigitsAppend(d, [DigitChar(n % 10)], 0);
    }
  }

  /** `parseInt` reads an unsigned number up to its first non-digit, as in `parseInt("12px") == 12`. */
  lemma ParseIntDigits(d: string, rest: string)
    requires d != [] && AllDigits(d)
    requires rest == [] || !IsDigit(rest[0])
    ensures ParseInt(d + rest) == Some(ReadDigits(d, 0))
  {
    var s := d + rest;
    assert s[0] == d[0] && SkipSpace(s) == s;
    ReadDigitsAppend(d, rest, 0);
  }

  /** No number is read when the first character is neither whitespace, a sign nor a digit. */
  lemma ParseIntNaN(s: string)
    requires s != [] && !IsSpace(s[0]) && !IsDigit(s[0]) && s[0] != '-' && s[0] != '+'
    ensures ParseInt(s) == None
  {
    assert SkipSpace(s) == s;
  }

  /** A string of digits reads as the number it spells. */
  lemma ParseIntOfDigits(d: string)
    requires d != [] && AllDigits(d)
    ensures ParseInt(d) == Some(ReadDigits(d, 0))
  {
    var c := d[0];
    assert IsDigit(c);
    assert SkipSpace(d) == d by { assert !IsSpace(c); }
    assert ParseSigned(d) == ParseDigits(d) by { assert c != '-' && c != '+'; }
  }

  /** A minus sign followed by digits reads as the negated number. */
  lemma ParseIntOfMinusDigits(d: string)
    requires d != [] && AllDigits(d)
    ensures ParseInt("-" + d) == Some(-(ReadDigits(d, 0) as int))
  {
    var s := "-" + d;
    assert s[0] == '-';
    assert SkipSpace(s) == s;
    assert s[1..] == d;
    assert IsDigit(d[0]);
  }

  /** Reading back the decimal rendering of an integer gives the integer. */
  lemma ParseIntOfIntToString(n: int)
    ensures ParseInt(IntToString(n)) == Some(n)
  {
    if n >= 0 {
      ParseIntOfDigits(NatToString(n));
      ReadNatToString(n);
    } else {
      ParseIntOfMinusDigits(NatToString(-n));
      ReadNatToString(-n);
    }
  }
}

/**
 * What the screens send and show: request descriptors standing for the
 * axios calls, the outcome of each call, and the alert dialogs fired.
 */
module Http {
  import opened Wrappers

  /** `backend_url` of src/util/util.js. */
  const BackendUrl: string := "http://localhost:3000"

  /** A file chosen in an `<input type="file">` (its bytes are not modelled). */
  datatype File = File(name: string)

  datatype Verb = Get | Post | Put | Delete

  /** One entry appended to a `FormData`. */
  datatype Part = TextPart(name: string, text: string) | FilePart(name: string, file: File)

  datatype Body =
    | NoBody
    | Form(parts: seq<Part>)                 // multipart/form-data
    | Json(fields: seq<(string, string)>)    // a flat object of string fields

  datatype Request = Request(verb: Verb, url: string, body: Body)

  /** How an axios mutation call ended; `responseData` is `error.response?.data` on failure. */
  datatype HttpOutcome = Succeeded | Failed(responseData: Option<string>)

  /** How an axios GET of a list ended; `data` is absent when the body was null/empty. */
  datatype Fetch<T> = FetchFailed | Fetched(data: Option<T>)

  datatype Icon = SuccessIcon | ErrorIcon

  /** A `Swal.fire(title, text, icon)` notification. */
  datatype Alert = Alert(title: string, text: string, icon: Icon)

  /** What one handler did outside the component: requests issued and alerts fired, in order. */
  datatype Effects = Effects(requests: seq<Request>, alerts: seq<Alert>)

  const NoEffects: Effects := Effects([], [])

  function GetRequest(url: string): Request {
    Request(Get, url, NoBody)
  }

  /** `error.response?.data || fallback`: the server's message when there is a non-empty one. */
  function ErrorText(outcome: HttpOutcome, fallback: string): (t: string)
    ensures t == fallback || (outcome.Failed? && outcome.responseData == Some(t) && t != "")
    ensures outcome.Succeeded? || outcome.responseData.None? ==> t == fallback
    ensures fallback != "" ==> t != ""
  {
    if outcome.Failed? && outcome.responseData.Some? && outcome.responseData.value != "" then
      outcome.responseData.value
    else
      fallback
  }

  /** `formData.get(name)` for a text field: the first text entry with that name. */
  function TextOf(parts: seq<Part>, name: string): Option<string> {
    if parts == [] then None
    else if parts[0].TextPart? && parts[0].name == name then Some(parts[0].text)
    else TextOf(parts[1..], name)
  }

  /** `formData.get(name)` for a file field: the first file entry with that name. */
  function FileOf(parts: seq<Part>, name: string): Option<File> {
    if parts == [] then None
    else if parts[0].FilePart? && parts[0].name == name then Some(parts[0].file)
    else FileOf(parts[1..], name)
  }
}
