/** Shared vocabulary of the client: optional values, the abstract shape of a backend
    reply, JavaScript's notion of whitespace and `trim()`, and order-preserving filtering. */
module Common {

  datatype Option<+T> = None | Some(value: T)

  /** The outcome of one backend call as the calling handler sees it: either the parsed
      payload, or a rejection whose `message` field may be absent. */
  datatype Reply<+T> = Ok(payload: T) | Err(message: Option<string>)

  /** A string property that JavaScript treats as truthy: present and non-empty. */
  predicate Truthy(s: Option<string>) {
    s.Some? && s.value != ""
  }

  /** The text a handler displays for a rejection: `err.message || fallback`. */
  function ErrorText(message: Option<string>, fallback: string): (r: string)
    requires fallback != ""
    ensures r != ""
    ensures Truthy(message) ==> r == message.value
    ensures !Truthy(message) ==> r == fallback
  {
    if Truthy(message) then message.value else fallback
  }

  /** The characters matched by `\s` in a JavaScript regular expression, which are also
      the characters `String.prototype.trim` removes. */
  predicate IsSpace(c: char) {
    var n := c as int;
    || (9 <= n <= 13)
    || n == 0x20 || n == 0xA0 || n == 0x1680
    || (0x2000 <= n <= 0x200A)
    || n == 0x2028 || n == 0x2029 || n == 0x202F || n == 0x205F
    || n == 0x3000 || n == 0xFEFF
  }

  /** True iff `s.trim()` is the empty string, i.e. `!s.trim()` holds. */
  predicate Blank(s: string) {
    forall i :: 0 <= i < |s| ==> IsSpace(s[i])
  }

  /** Number of whitespace characters at the start of `s`. */
  function LeadingSpace(s: string): (n: nat)
    ensures n <= |s|
    ensures Blank(s[..n])
    ensures n < |s| ==> !IsSpace(s[n])
  {
    if |s| == 0 || !IsSpace(s[0]) then 0
    else
      var k := LeadingSpace(s[1..]);
      assert s[..k + 1] == [s[0]] + s[1..][..k];
      k + 1
  }

  /** Number of whitespace characters at the end of `s`. */
  function TrailingSpace(s: string): (n: nat)
    ensures n <= |s|
    ensures Blank(s[|s| - n..])
    ensures n < |s| ==> !IsSpace(s[|s| - n - 1])
  {
    if |s| == 0 || !IsSpace(s[|s| - 1]) then 0
    else
      var t := s[..|s| - 1];
      var k := TrailingSpace(t);
      assert s[|s| - (k + 1)..] == t[|t| - k..] + [s[|s| - 1]];
      k + 1
  }

  /** `s.trim()`: `s` without its leading and trailing whitespace. */
  function Trim(s: string): (r: string)
    ensures LeadingSpace(s) + |r| <= |s|
    ensures r == s[LeadingSpace(s)..LeadingSpace(s) + |r|]
    ensures Blank(s[LeadingSpace(s) + |r|..])
    ensures r != "" ==> !IsSpace(r[0]) && !IsSpace(r[|r| - 1])
    ensures r == "" <==> Blank(s)
  {
    var a := LeadingSpace(s);
    var t := s[a..];
    var b := TrailingSpace(t);
    var r := t[..|t| - b];
    assert s[a + |r|..] == t[|t| - b..];
    assert Blank(s) ==> a == |s|;
    assert r == "" ==> a == |s| by {
      if a < |s| {
        assert !IsSpace(t[0]);
        assert b < |t|;
      }
    }
    assert r == "" ==> s[..a] == s;
    r
  }

  /** Trimming twice removes nothing more than trimming once. */
  lemma TrimIdempotent(s: string)
    ensures Trim(Trim(s)) == Trim(s)
  {
    var r := Trim(s);
    if r != "" {
      assert LeadingSpace(r) == 0;
      assert TrailingSpace(r) == 0;
    }
  }

  /** Whitespace in front of a string is counted by `LeadingSpace` along with the string's own. */
  lemma {:induction false} LeadingSpaceAfterBlank(pad: string, s: string)
    requires Blank(pad)
    ensures LeadingSpace(pad + s) == |pad| + LeadingSpace(s)
  {
    if pad == [] {
      assert pad + s == s;
    } else {
      assert (pad + s)[1..] == pad[1..] + s;
      LeadingSpaceAfterBlank(pad[1..], s);
    }
  }

  /** Whitespace put in front of a string does not change its trimmed form. */
  lemma TrimIgnoresLeadingSpace(pad: string, s: string)
    requires Blank(pad)
    ensures Trim(pad + s) == Trim(s)
  {
    LeadingSpaceAfterBlank(pad, s);
    assert (pad + s)[|pad| + LeadingSpace(s)..] == s[LeadingSpace(s)..];
  }

  /** `s.filter(keep)`: the elements of `s` that satisfy `keep`, in their original order. */
  function Filter<T(!new)>(keep: T -> bool, s: seq<T>): (r: seq<T>)
    ensures |r| <= |s|
    ensures forall i :: 0 <= i < |r| ==> keep(r[i])
    ensures forall x :: x in r <==> x in s && keep(x)
  {
    if s == [] then []
    else if keep(s[0]) then [s[0]] + Filter(keep, s[1..])
    else Filter(keep, s[1..])
  }

  /** Filtering distributes over concatenation, which is what "keeps the original order" means. */
  lemma {:induction false} FilterConcat<T(!new)>(keep: T -> bool, a: seq<T>, b: seq<T>)
    ensures Filter(keep, a + b) == Filter(keep, a) + Filter(keep, b)
  {
    if a == [] {
      assert a + b == b;
    } else {
      assert (a + b)[1..] == a[1..] + b;
      FilterConcat(keep, a[1..], b);
    }
  }

  /** An element-wise condition that every element meets: filtering is then the identity. */
  lemma {:induction false} FilterKeepsAll<T(!new)>(keep: T -> bool, s: seq<T>)
    requires forall i :: 0 <= i < |s| ==> keep(s[i])
    ensures Filter(keep, s) == s
  {
    if s != [] {
      FilterKeepsAll(keep, s[1..]);
    }
  }

  /** Filtering a second time with the same condition changes nothing. */
  lemma FilterIdempotent<T(!new)>(keep: T -> bool, s: seq<T>)
    ensures Filter(keep, Filter(keep, s)) == Filter(keep, s)
  {
    FilterKeepsAll(keep, Filter(keep, s));
  }

  /** The error-clearing step of the forms' `handleChange`: an error shown for `field`
      (present and non-empty) is replaced by the empty string; nothing else changes. */
  function ClearError<F>(errors: map<F, string>, field: F): (r: map<F, string>)
    ensures r.Keys == errors.Keys
    ensures field in r ==> r[field] == ""
    ensures forall f :: f in errors && f != field ==> r[f] == errors[f]
  {
    if field in errors && errors[field] != "" then errors[field := ""] else errors
  }
}
