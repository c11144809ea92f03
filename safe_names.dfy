/**
 * The PDF file-name sanitiser both app variants share:
 * `(name || "Customer").trim().replace(/[^a-z0-9]/gi, "_")`.
 *
 * JavaScript strings are sequences of UTF-16 code units and a regular
 * expression without the `u` flag matches one code unit at a time, so a
 * character outside the Basic Multilingual Plane (two code units) becomes two
 * underscores. Without the `u` flag, case-insensitive matching never maps a
 * non-ASCII character onto an ASCII letter, so exactly the ASCII letters and
 * digits survive.
 */
module SafeNames {

  /** The name used when the customer name is empty. */
  const DefaultName: string := "Customer"

  /** ECMAScript WhiteSpace and LineTerminator code points, which `trim` removes. */
  predicate IsJsWhitespace(c: char)
  {
    c == '\t' || c == '\n' || c == '\U{000B}' || c == '\U{000C}' || c == '\r' || c == ' '
    || c == '\U{00A0}' || c == '\U{1680}' || ('\U{2000}' <= c <= '\U{200A}')
    || c == '\U{2028}' || c == '\U{2029}' || c == '\U{202F}' || c == '\U{205F}'
    || c == '\U{3000}' || c == '\U{FEFF}'
  }

  /** The characters `[a-z0-9]` with the `i` flag keeps. */
  predicate IsAsciiAlnum(c: char)
  {
    ('a' <= c <= 'z') || ('A' <= c <= 'Z') || ('0' <= c <= '9')
  }

  /** How many UTF-16 code units the character takes. */
  function Utf16Units(c: char): nat
  {
    if c as int >= 0x1_0000 then 2 else 1
  }

  /** JavaScript's `length` of a string: its UTF-16 code units. */
  function Utf16Length(s: string): nat
  {
    if s == [] then 0 else Utf16Units(s[0]) + Utf16Length(s[1..])
  }

  /** How many whitespace characters `s` starts with. */
  function LeadingSpace(s: string): (i: nat)
    ensures i <= |s|
    ensures forall k :: 0 <= k < i ==> IsJsWhitespace(s[k])
    ensures i < |s| ==> !IsJsWhitespace(s[i])
  {
    if s == [] || !IsJsWhitespace(s[0]) then 0
    else
      var i := 1 + LeadingSpace(s[1..]);
      assert forall k :: 1 <= k < i ==> s[k] == s[1..][k - 1];
      i
  }

  /** Where the trailing whitespace of `s` begins. */
  function TrailingSpace(s: string): (j: nat)
    ensures j <= |s|
    ensures forall k :: j <= k < |s| ==> IsJsWhitespace(s[k])
    ensures j > 0 ==> !IsJsWhitespace(s[j - 1])
  {
    if s == [] || !IsJsWhitespace(s[|s| - 1]) then |s|
    else
      var j := TrailingSpace(s[..|s| - 1]);
      assert forall k :: j <= k < |s| - 1 ==> s[k] == s[..|s| - 1][k];
      j
  }

  /**
   * `trim`: the middle of `s` left once the whitespace at both ends is gone.
   * It is empty exactly when `s` is all whitespace; otherwise it starts and
   * ends with a non-whitespace character and all that was dropped is
   * whitespace.
   */
  function Trim(s: string): (r: string)
    ensures |r| <= |s|
    ensures r == [] <==> forall k :: 0 <= k < |s| ==> IsJsWhitespace(s[k])
    ensures r != [] ==> !IsJsWhitespace(r[0]) && !IsJsWhitespace(r[|r| - 1])
    ensures LeadingSpace(s) + |r| <= |s| && r == s[LeadingSpace(s)..LeadingSpace(s) + |r|]
    ensures forall k :: LeadingSpace(s) + |r| <= k < |s| ==> IsJsWhitespace(s[k])
  {
    var i, j := LeadingSpace(s), TrailingSpace(s);
    if i < j then
      assert !IsJsWhitespace(s[i]);
      s[i..j]
    else
      assert j == 0;
      []
  }

  /** `n` underscores. */
  function Underscores(n: nat): (r: string)
    ensures |r| == n && forall k :: 0 <= k < n ==> r[k] == '_'
  {
    if n == 0 then [] else ['_'] + Underscores(n - 1)
  }

  /** `replace(/[^a-z0-9]/gi, "_")`: every other code unit becomes `_`. */
  function Sanitize(s: string): (r: string)
    ensures |r| == Utf16Length(s)
    ensures forall k :: 0 <= k < |r| ==> IsAsciiAlnum(r[k]) || r[k] == '_'
  {
    if s == [] then []
    else (if IsAsciiAlnum(s[0]) then [s[0]] else Underscores(Utf16Units(s[0]))) + Sanitize(s[1..])
  }

  /** Every character of `s` fits in one UTF-16 code unit. */
  predicate IsBmp(s: string)
  {
    forall k :: 0 <= k < |s| ==> Utf16Units(s[k]) == 1
  }

  /**
   * On text without astral characters the sanitiser keeps the length and
   * works position by position: letters and digits stay, all else is `_`.
   */
  lemma {:induction false} SanitizeBmp(s: string)
    requires IsBmp(s)
    ensures |Sanitize(s)| == |s|
    ensures forall k :: 0 <= k < |s| ==> Sanitize(s)[k] == if IsAsciiAlnum(s[k]) then s[k] else '_'
  {
    if s != [] {
      assert IsBmp(s[1..]) by {
        forall k | 0 <= k < |s[1..]| ensures Utf16Units(s[1..][k]) == 1 {
          assert s[1..][k] == s[k + 1];
        }
      }
      SanitizeBmp(s[1..]);
      assert Utf16Units(s[0]) == 1;
      var head := if IsAsciiAlnum(s[0]) then [s[0]] else Underscores(1);
      assert Sanitize(s) == head + Sanitize(s[1..]);
      forall k | 0 <= k < |s|
        ensures Sanitize(s)[k] == if IsAsciiAlnum(s[k]) then s[k] else '_'
      {
        if k > 0 {
          assert Sanitize(s)[k] == Sanitize(s[1..])[k - 1];
          assert s[1..][k - 1] == s[k];
        }
      }
    }
  }

  /** Sanitising a sanitised name changes nothing. */
  lemma SanitizeIdempotent(s: string)
    ensures Sanitize(Sanitize(s)) == Sanitize(s)
  {
    var r := Sanitize(s);
    SanitizeBmp(r);
  }

  /** The default name is already trimmed. */
  lemma DefaultNameTrimmed()
    ensures Trim(DefaultName) == DefaultName
  {
    var d := DefaultName;
    assert d[0] == 'C' && d[|d| - 1] == 'r';
    assert LeadingSpace(d) == 0;
    assert TrailingSpace(d) == |d|;
  }

  /** The default name is made of letters only, so sanitising keeps it. */
  lemma DefaultNameSanitized()
    ensures Sanitize(DefaultName) == DefaultName
  {
    var d := DefaultName;
    assert d == ['C', 'u', 's', 't', 'o', 'm', 'e', 'r'];
    assert forall k :: 0 <= k < |d| ==> IsAsciiAlnum(d[k]) && Utf16Units(d[k]) == 1;
    SanitizeBmp(d);
  }

  /** `safeName`: the sanitised, trimmed name, or the default when the name is empty. */
  function SafeName(name: string): (r: string)
    ensures name == [] ==> r == DefaultName
    ensures name != [] ==> |r| == Utf16Length(Trim(name))
    ensures forall k :: 0 <= k < |r| ==> IsAsciiAlnum(r[k]) || r[k] == '_'
  {
    var chosen := if name == "" then DefaultName else name;
    var r := Sanitize(Trim(chosen));
    assert name == [] ==> r == DefaultName by {
      if name == [] {
        DefaultNameTrimmed();
        DefaultNameSanitized();
      }
    }
    r
  }

  /** A non-empty name of only whitespace gives an empty safe name, not the default. */
  lemma WhitespaceNameIsEmpty(name: string)
    requires name != []
    requires forall k :: 0 <= k < |name| ==> IsJsWhitespace(name[k])
    ensures SafeName(name) == []
  {
  }

  /** Letters and digits of a plain (one-code-unit) trimmed name survive in place. */
  lemma SafeNameKeepsAlnum(name: string)
    requires name != [] && IsBmp(Trim(name))
    ensures |SafeName(name)| == |Trim(name)|
    ensures forall k :: 0 <= k < |Trim(name)| ==>
      SafeName(name)[k] == if IsAsciiAlnum(Trim(name)[k]) then Trim(name)[k] else '_'
  {
    SanitizeBmp(Trim(name));
  }

  /** Characters a sanitised PDF file name is made of. */
  predicate IsFileNameChar(c: char)
  {
    IsAsciiAlnum(c) || c == '_' || c == '.'
  }

  predicate IsFileNameSafe(s: string)
  {
    forall k :: 0 <= k < |s| ==> IsFileNameChar(s[k])
  }

  /** A safe name is usable in a file name. */
  lemma SafeNameIsFileNameSafe(name: string)
    ensures IsFileNameSafe(SafeName(name))
  {
    var n := SafeName(name);
    forall k | 0 <= k < |n| ensures IsFileNameChar(n[k]) {
      assert IsAsciiAlnum(n[k]) || n[k] == '_';
    }
  }

  /**
   * A file name built as prefix, safe name and `.pdf` holds only file-name
   * characters when the prefix does, and the safe name sits between the
   * prefix and the extension.
   */
  lemma PdfNameShape(prefix: string, name: string)
    requires IsFileNameSafe(prefix)
    ensures var f := prefix + SafeName(name) + ".pdf";
      IsFileNameSafe(f) && f[|prefix|..|f| - 4] == SafeName(name) && f[|f| - 4..] == ".pdf"
  {
    var n := SafeName(name);
    SafeNameIsFileNameSafe(name);
    PdfNameAround(prefix, n);
  }

  /** The same for any file-name-safe middle part. */
  lemma PdfNameAround(prefix: string, n: string)
    requires IsFileNameSafe(prefix) && IsFileNameSafe(n)
    ensures var f := prefix + n + ".pdf";
      IsFileNameSafe(f) && f[|prefix|..|f| - 4] == n && f[|f| - 4..] == ".pdf"
  {
    var ext := ".pdf";
    assert IsFileNameSafe(ext) by {
      assert ext == ['.', 'p', 'd', 'f'];
    }
    FileNameSafeConcat(prefix, n);
    FileNameSafeConcat(prefix + n, ext);
    var f := prefix + n + ext;
    assert f[|prefix|..|f| - 4] == n;
    assert f[|f| - 4..] == ext;
  }

  /** File-name characters stay file-name characters under concatenation. */
  lemma FileNameSafeConcat(a: string, b: string)
    requires IsFileNameSafe(a) && IsFileNameSafe(b)
    ensures IsFileNameSafe(a + b)
  {
    forall k | 0 <= k < |a + b| ensures IsFileNameChar((a + b)[k]) {
      if k >= |a| {
        assert (a + b)[k] == b[k - |a|];
      }
    }
  }
}
