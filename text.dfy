/** String helpers shared by the page scripts: optional values, JavaScript
    truthiness, String.prototype.trim and the upper-cased initial shown in the
    user badge. Strings are sequences of Unicode scalar values; JavaScript
    counts UTF-16 code units, which differs only for characters outside the
    Basic Multilingual Plane. */
module Text {

  datatype Option<+T> = None | Some(value: T)

  /** A value read from the page (an input, a URL parameter, a localStorage
      entry, a record field) that may be null or undefined is "truthy" in
      JavaScript exactly when it is present and not the empty string. */
  predicate Truthy(o: Option<string>) {
    o.Some? && o.value != ""
  }

  /** The characters String.prototype.trim removes: WhiteSpace (tab, vertical
      tab, form feed, the byte-order mark and every space separator of
      category Zs) and the four line terminators. */
  predicate IsSpace(c: char) {
    || c == '\t' || c == '\n' || c == '\U{B}' || c == '\U{C}' || c == '\r'
    || c == ' ' || c == '\U{A0}' || c == '\U{1680}'
    || ('\U{2000}' <= c <= '\U{200A}')
    || c == '\U{2028}' || c == '\U{2029}' || c == '\U{202F}' || c == '\U{205F}'
    || c == '\U{3000}' || c == '\U{FEFF}'
  }

  /** Drops the leading white space: the result is the longest suffix of `s`
      that does not start with a space. */
  function TrimStart(s: string): (r: string)
    ensures |r| <= |s| && r == s[|s| - |r|..]
    ensures forall i :: 0 <= i < |s| - |r| ==> IsSpace(s[i])
    ensures r == [] || !IsSpace(r[0])
  {
    if s != [] && IsSpace(s[0]) then TrimStart(s[1..]) else s
  }

  /** Drops the trailing white space: the result is the longest prefix of `s`
      that does not end with a space. */
  function TrimEnd(s: string): (r: string)
    ensures |r| <= |s| && r == s[..|r|]
    ensures forall i :: |r| <= i < |s| ==> IsSpace(s[i])
    ensures r == [] || !IsSpace(r[|r| - 1])
  {
    if s != [] && IsSpace(s[|s| - 1]) then TrimEnd(s[..|s| - 1]) else s
  }

  /** String.prototype.trim. */
  function Trim(s: string): (r: string)
    ensures |r| <= |s|
    ensures r == [] || (!IsSpace(r[0]) && !IsSpace(r[|r| - 1]))
  {
    TrimEnd(TrimStart(s))
  }

  /** Nothing but white space (or nothing at all). */
  predicate Blank(s: string) {
    forall i :: 0 <= i < |s| ==> IsSpace(s[i])
  }

  /** A trimmed value is empty (and so falsy) exactly when the input was
      blank. */
  lemma TrimEmptyIff(s: string)
    ensures Trim(s) == [] <==> Blank(s)
  {
    var t := TrimStart(s);
    if Trim(s) == [] {
      forall i | 0 <= i < |s| ensures IsSpace(s[i]) {
        if i >= |s| - |t| {
          assert s[i] == t[i - (|s| - |t|)];
        }
      }
    } else {
      var r := Trim(s);
      assert r == t[..|r|];
      assert t == s[|s| - |t|..];
      assert s[|s| - |t|] == r[0];
    }
  }

  /** Trimming twice is trimming once. */
  lemma TrimIdempotent(s: string)
    ensures Trim(Trim(s)) == Trim(s)
  {
    var r := Trim(s);
    assert TrimStart(r) == r;
    assert TrimEnd(r) == r;
  }

  /** String.prototype.toUpperCase applied to one character, for the Latin-1
      range (which covers the Spanish alphabet): a–z and à–þ (but not ÷) move
      up by 32, ß becomes "SS", ÿ becomes Ÿ and µ becomes Greek capital mu.
      Every other character is kept as it is. */
  function UpperChar(c: char): (u: string)
    ensures 1 <= |u| <= 2
    ensures 'a' <= c <= 'z' ==> u == [(c as int - 32) as char] && 'A' <= u[0] <= 'Z'
  {
    if 'a' <= c <= 'z' || ('\U{E0}' <= c <= '\U{FE}' && c != '\U{F7}') then
      [(c as int - 32) as char]
    else if c == '\U{DF}' then "SS"
    else if c == '\U{FF}' then "\U{178}"
    else if c == '\U{B5}' then "\U{39C}"
    else [c]
  }

  /** `name.charAt(0).toUpperCase()`: the badge and avatar letter. It is empty
      exactly when the name is. */
  function Initial(name: string): (r: string)
    ensures r == [] <==> name == []
    ensures |r| <= 2
    ensures name != [] && 'A' <= name[0] <= 'Z' ==> r == [name[0]]
  {
    if name == [] then [] else UpperChar(name[0])
  }
}
