/** Values shared by the whole page: the quote record, optional storage values,
    and the string trimming the add form applies to its inputs. */
module QuoteData {

  datatype Option<T> = None | Some(value: T)

  /** A quote as the page keeps it: no identity field, structural equality,
      duplicates allowed. */
  datatype Quote = Quote(text: string, category: string)

  /** JavaScript truthiness of a value read from storage: a missing key (`null`)
      and the empty string are both falsy. */
  predicate IsSet(o: Option<string>)
  {
    o.Some? && o.value != ""
  }

  /** The characters `String.prototype.trim` strips: ECMAScript WhiteSpace
      (tab, vertical tab, form feed, space, no-break space, byte order mark and
      the Unicode space separators) and LineTerminator (LF, CR, LS, PS). */
  predicate IsWhitespace(c: char)
  {
    c == '\t' || c == '\n' || c == '\U{B}' || c == '\U{C}' || c == '\r' || c == ' '
    || c == '\U{A0}' || c == '\U{1680}' || ('\U{2000}' <= c <= '\U{200A}')
    || c == '\U{2028}' || c == '\U{2029}' || c == '\U{202F}' || c == '\U{205F}'
    || c == '\U{3000}' || c == '\U{FEFF}'
  }

  predicate Blank(s: string)
  {
    forall i :: 0 <= i < |s| ==> IsWhitespace(s[i])
  }

  /** Drops leading whitespace. */
  function TrimStart(s: string): string
  {
    if s != [] && IsWhitespace(s[0]) then TrimStart(s[1..]) else s
  }

  /** Drops trailing whitespace. */
  function TrimEnd(s: string): string
  {
    if s != [] && IsWhitespace(s[|s| - 1]) then TrimEnd(s[..|s| - 1]) else s
  }

  /** `String.prototype.trim`. */
  function Trim(s: string): string
  {
    TrimEnd(TrimStart(s))
  }

  /** `TrimStart` keeps a suffix of `s`, drops only whitespace, and stops at the
      first character that is not whitespace. */
  lemma {:induction false} TrimStartSpec(s: string)
    ensures var r := TrimStart(s);
      && |r| <= |s| && r == s[|s| - |r|..]
      && Blank(s[..|s| - |r|])
      && (r == [] || !IsWhitespace(r[0]))
  {
    if s != [] && IsWhitespace(s[0]) {
      TrimStartSpec(s[1..]);
      var r := TrimStart(s[1..]);
      assert s[..|s| - |r|] == [s[0]] + s[1..][..|s| - 1 - |r|];
    }
  }

  /** `TrimEnd` keeps a prefix of `s`, drops only whitespace, and stops at the
      last character that is not whitespace. */
  lemma {:induction false} TrimEndSpec(s: string)
    ensures var r := TrimEnd(s);
      && |r| <= |s| && r == s[..|r|]
      && Blank(s[|r|..])
      && (r == [] || !IsWhitespace(r[|r| - 1]))
  {
    if s != [] && IsWhitespace(s[|s| - 1]) {
      var p := s[..|s| - 1];
      TrimEndSpec(p);
      var r := TrimEnd(p);
      assert s[|r|..] == p[|r|..] + [s[|s| - 1]];
    }
  }

  /** The trimmed string has no whitespace at either end, and it is empty
      exactly when `s` is all whitespace. */
  lemma TrimSpec(s: string)
    ensures var r := Trim(s);
      && (r == [] || (!IsWhitespace(r[0]) && !IsWhitespace(r[|r| - 1])))
      && (r == [] <==> Blank(s))
  {
    var t := TrimStart(s);
    var a := |s| - |t|;
    TrimStartSpec(s);
    TrimEndSpec(t);
    var r := TrimEnd(t);
    if r == [] {
      // an all-blank `t` would have been dropped by `TrimStart`
      assert t == [] && s[..a] == s;
    } else {
      assert r[0] == t[0] && s[a] == t[0];
    }
  }

  /** What `Trim` removes is whitespace only: its result is the slice of `s`
      that starts after the leading whitespace. */
  lemma TrimSlice(s: string)
    ensures var r := Trim(s); var a := |s| - |TrimStart(s)|;
      0 <= a <= |s| - |r| && r == s[a..a + |r|] && Blank(s[..a]) && Blank(s[a + |r|..])
  {
    var t := TrimStart(s);
    TrimStartSpec(s);
    TrimEndSpec(t);
    var r := TrimEnd(t);
    var a := |s| - |t|;
    assert s[a + |r|..] == t[|r|..];
  }

  /** A string as the add path leaves it: non-empty, no whitespace at either end. */
  predicate Trimmed(s: string)
  {
    s != [] && !IsWhitespace(s[0]) && !IsWhitespace(s[|s| - 1])
  }

  /** The check of the add form: both inputs are trimmed, and a quote is made
      only when neither trimmed value is empty. */
  function FormQuote(textInput: string, categoryInput: string): Option<Quote>
  {
    var text, category := Trim(textInput), Trim(categoryInput);
    if text != "" && category != "" then Some(Quote(text, category)) else None
  }

  /** The form yields a quote exactly when neither input is all whitespace; the
      quote holds the trimmed inputs, and both of its fields are trimmed,
      non-empty strings. */
  lemma FormQuoteSpec(textInput: string, categoryInput: string)
    ensures var r := FormQuote(textInput, categoryInput);
      && (r.Some? <==> !Blank(textInput) && !Blank(categoryInput))
      && (r.Some? ==> r.value == Quote(Trim(textInput), Trim(categoryInput)))
      && (r.Some? ==> Trimmed(r.value.text) && Trimmed(r.value.category))
  {
    TrimSpec(textInput);
    TrimSpec(categoryInput);
  }

  /** A string with no whitespace at either end is left as it is by `Trim`. */
  lemma TrimKeepsTrimmed(s: string)
    requires s == [] || (!IsWhitespace(s[0]) && !IsWhitespace(s[|s| - 1]))
    ensures Trim(s) == s
  {
  }

  /** Trimming twice is trimming once. */
  lemma TrimIdempotent(s: string)
    ensures Trim(Trim(s)) == Trim(s)
  {
    TrimSpec(s);
    TrimKeepsTrimmed(Trim(s));
  }

  /** A quote the form produced, typed into the form again, yields itself. */
  lemma FormQuoteIdempotent(textInput: string, categoryInput: string)
    requires FormQuote(textInput, categoryInput).Some?
    ensures var q := FormQuote(textInput, categoryInput).value;
      FormQuote(q.text, q.category) == Some(q)
  {
    TrimIdempotent(textInput);
    TrimIdempotent(categoryInput);
  }
}
