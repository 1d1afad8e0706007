/** The three form validators of src/utils/validations.js. Each returns
    `{isValid, message}`: an emptiness check first, then a format check that the
    source writes as an anchored regular expression and this model writes as an
    explicit predicate over the characters. */
module Validations {

  import Js

  datatype Validation = Validation(isValid: bool, message: string)

  const EmptyField := "El campo no puede estar vacío"
  const NameFormat := "El nombre debe contener solo letras y tener al menos 5 caracteres"
  const EmptyPassword := "La contraseña no puede estar vacía"
  const ShortPassword := "La contraseña debe tener al menos 4 caracteres"
  const EmailFormat := "Ingrese un correo electrónico válido"

  const Valid := Validation(true, "")

  function Invalid(message: string): Validation
  {
    Validation(false, message)
  }

  /** `\s` of ECMAScript regular expressions: the WhiteSpace and LineTerminator
      code points (tab, line tab, form feed, ZWNBSP, the Unicode "Zs" spaces,
      line feed, carriage return, line and paragraph separators). */
  predicate IsWhitespace(c: char)
  {
    || c == '\t' || c == '\n' || c == '\U{000B}' || c == '\U{000C}' || c == '\r'
    || c == ' ' || c == '\U{00A0}' || c == '\U{1680}'
    || ('\U{2000}' <= c <= '\U{200A}')
    || c == '\U{2028}' || c == '\U{2029}' || c == '\U{202F}' || c == '\U{205F}'
    || c == '\U{3000}' || c == '\U{FEFF}'
  }

  predicate IsAsciiLetter(c: char)
  {
    ('a' <= c <= 'z') || ('A' <= c <= 'Z')
  }

  /** The number of UTF-16 code units of `s`, which is what `.length` counts:
      characters outside the Basic Multilingual Plane take two. */
  function Utf16Length(s: string): (n: nat)
  {
    if s == [] then 0
    else Utf16Length(s[..|s| - 1]) + (if s[|s| - 1] as int >= 0x1_0000 then 2 else 1)
  }

  lemma {:induction false} Utf16LengthBounds(s: string)
    ensures |s| <= Utf16Length(s) <= 2 * |s|
    ensures Utf16Length(s) == |s| <==> (forall i | 0 <= i < |s| :: s[i] as int < 0x1_0000)
  {
    if s != [] {
      Utf16LengthBounds(s[..|s| - 1]);
      assert forall i | 0 <= i < |s| - 1 :: s[..|s| - 1][i] == s[i];
    }
  }

  // ---------------------------------------------------------------- name

  /** `/^[a-zA-Z\s]{5,}$/`. Every character the class admits lies in the Basic
      Multilingual Plane, so counting characters and counting code units agree. */
  predicate NamePattern(s: string)
  {
    |s| >= 5 && forall i | 0 <= i < |s| :: IsAsciiLetter(s[i]) || IsWhitespace(s[i])
  }

  function Name(s: string): (r: Validation)
    ensures s == "" ==> r == Invalid(EmptyField)
    ensures s != "" && !NamePattern(s) ==> r == Invalid(NameFormat)
    ensures r.isValid <==> NamePattern(s)
  {
    if s == "" then Invalid(EmptyField)
    else if !NamePattern(s) then Invalid(NameFormat)
    else Valid
  }

  /** The class admits whitespace, so five spaces are a valid name. */
  lemma WhitespaceNameIsValid(s: string)
    requires |s| >= 5 && forall i | 0 <= i < |s| :: IsWhitespace(s[i])
    ensures Name(s) == Valid
  {
  }

  // ---------------------------------------------------------------- password

  function Password(s: string): (r: Validation)
    ensures s == "" ==> r == Invalid(EmptyPassword)
    ensures s != "" && Utf16Length(s) < 4 ==> r == Invalid(ShortPassword)
    ensures r.isValid <==> Utf16Length(s) >= 4
  {
    if s == "" then Invalid(EmptyPassword)
    else if Utf16Length(s) < 4 then Invalid(ShortPassword)
    else Valid
  }

  /** A password of at least four characters is always long enough; a shorter
      one passes only when characters outside the Basic Multilingual Plane
      make up the difference (two such characters already count as four). */
  lemma PasswordByCharacters(s: string)
    ensures |s| >= 4 ==> Password(s).isValid
    ensures |s| < 2 ==> !Password(s).isValid
    ensures (forall i | 0 <= i < |s| :: s[i] as int < 0x1_0000) ==> (Password(s).isValid <==> |s| >= 4)
  {
    Utf16LengthBounds(s);
  }

  // ---------------------------------------------------------------- email

  /** A character of the class `[^\s@]`. */
  predicate Plain(c: char)
  {
    !IsWhitespace(c) && c != '@'
  }

  predicate AllPlain(s: string)
  {
    forall i | 0 <= i < |s| :: Plain(s[i])
  }

  /** The first index of `c` in `s`, if any. */
  function IndexOf(s: string, c: char): (r: Js.Option<nat>)
    ensures r.Some? ==> r.value < |s| && s[r.value] == c
    ensures r.Some? ==> forall i | 0 <= i < r.value :: s[i] != c
    ensures r.None? ==> forall i | 0 <= i < |s| :: s[i] != c
  {
    if s == [] then Js.None
    else if s[0] == c then Js.Some(0)
    else match IndexOf(s[1..], c)
      case None => Js.None
      case Some(k) => Js.Some(k + 1)
  }

  /** `[^\s@]+\.[^\s@]+` on the part after the '@': only plain characters and a
      dot with at least one character on each side of it. */
  predicate DomainPattern(d: string)
  {
    AllPlain(d) && |d| >= 3 && '.' in d[1..|d| - 1]
  }

  /** `/^[^\s@]+@[^\s@]+\.[^\s@]+$/`. No class admits '@', so the '@' of the
      pattern is the first and only one. */
  predicate EmailPattern(s: string)
  {
    match IndexOf(s, '@')
    case None => false
    case Some(i) => i > 0 && AllPlain(s[..i]) && DomainPattern(s[i + 1..])
  }

  function Email(s: string): (r: Validation)
    ensures s == "" ==> r == Invalid(EmptyField)
    ensures s != "" && !EmailPattern(s) ==> r == Invalid(EmailFormat)
    ensures r.isValid <==> EmailPattern(s)
  {
    if s == "" then Invalid(EmptyField)
    else if !EmailPattern(s) then Invalid(EmailFormat)
    else Valid
  }

  /** `s` is local part L, '@', then A '.' B: the decomposition the pattern
      describes. */
  ghost predicate EmailParts(s: string, l: string, a: string, b: string)
  {
    && s == l + "@" + a + "." + b
    && l != [] && a != [] && b != []
    && AllPlain(l) && AllPlain(a + "." + b)
  }

  /** A string the pattern test accepts splits as L@A.B. */
  lemma PatternGivesParts(s: string) returns (l: string, a: string, b: string)
    requires EmailPattern(s)
    ensures EmailParts(s, l, a, b)
  {
    var i := IndexOf(s, '@').value;
    var d := s[i + 1..];
    var j :| 0 <= j < |d| - 2 && d[1..|d| - 1][j] == '.';
    assert d[j + 1] == '.';
    l, a, b := s[..i], d[..j + 1], d[j + 2..];
    assert d[j + 1..] == "." + b;
    assert d == a + d[j + 1..];
    assert s == l + "@" + d;
  }

  /** A string that splits as L@A.B passes the pattern test. */
  lemma PartsGivePattern(s: string, l: string, a: string, b: string)
    requires EmailParts(s, l, a, b)
    ensures EmailPattern(s)
  {
    var d := a + "." + b;
    assert s == l + "@" + d;
    assert forall i | 0 <= i < |l| :: s[i] == l[i];
    assert s[|l|] == '@';
    assert IndexOf(s, '@') == Js.Some(|l|);
    assert s[..|l|] == l;
    assert s[|l| + 1..] == d;
    assert d[1..|d| - 1][|a| - 1] == '.';
  }

  /** The pattern test accepts exactly the strings that split as L@A.B with
      non-empty parts free of whitespace and '@'. */
  lemma EmailPatternDecomposition(s: string)
    ensures EmailPattern(s) <==> exists l, a, b :: EmailParts(s, l, a, b)
  {
    if EmailPattern(s) {
      var l, a, b := PatternGivesParts(s);
    }
    if exists l, a, b :: EmailParts(s, l, a, b) {
      var l, a, b :| EmailParts(s, l, a, b);
      PartsGivePattern(s, l, a, b);
    }
  }

  /** A valid email has exactly one '@' and no whitespace. */
  lemma ValidEmailShape(s: string)
    requires Email(s).isValid
    ensures exists i | 0 <= i < |s| :: s[i] == '@'
    ensures forall i, j | 0 <= i < |s| && 0 <= j < |s| && s[i] == '@' && s[j] == '@' :: i == j
    ensures forall i | 0 <= i < |s| :: !IsWhitespace(s[i])
  {
    var k := IndexOf(s, '@').value;
    var d := s[k + 1..];
    assert forall i | k < i < |s| :: s[i] == d[i - k - 1];
    assert forall i | 0 <= i < k :: s[i] == s[..k][i];
  }

  // ---------------------------------------------------------------- all three

  /** For every validator, `isValid` holds exactly when the message is empty,
      and every failure carries a non-empty message. */
  lemma ValidIffNoMessage(s: string)
    ensures Name(s).isValid <==> Name(s).message == ""
    ensures Password(s).isValid <==> Password(s).message == ""
    ensures Email(s).isValid <==> Email(s).message == ""
  {
  }

  /** The empty input is rejected by every validator, before any format test. */
  lemma EmptyAlwaysRejected()
    ensures Name("") == Invalid(EmptyField) && Email("") == Invalid(EmptyField)
    ensures Password("") == Invalid(EmptyPassword)
  {
  }
}
