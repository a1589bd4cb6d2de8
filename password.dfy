/** The password strength rule of auth/internal/v1/helper/crypt.go (`IsValid`):
    at least 7 bytes, and at least one upper-case letter, one lower-case
    letter, one number and one punctuation or symbol rune. */
module Password {
  import opened Text

  /** Which case of the rune switch fires: the cases are tried in this order
      and only the first that holds sets its flag. */
  datatype RuneClass = Upper | Lower | Number | Special | NoClass

  /** The `unicode` classes, exact on ASCII: the upper and lower letters, the
      digits, and the 32 printable characters that are neither letters, digits
      nor the space (Go files each of them under IsPunct or IsSymbol). Any
      other rune falls in no class. */
  function ClassOf(c: char): RuneClass {
    if 'A' <= c <= 'Z' then Upper
    else if 'a' <= c <= 'z' then Lower
    else if '0' <= c <= '9' then Number
    else if '!' <= c <= '/' || ':' <= c <= '@' || '[' <= c <= '`' || '{' <= c <= '~' then Special
    else NoClass
  }

  predicate Has(s: string, k: RuneClass) {
    exists i :: 0 <= i < |s| && ClassOf(s[i]) == k
  }

  /** The rule IsValid checks. */
  predicate Strong(s: string) {
    Utf8Len(s) >= 7 && Has(s, Upper) && Has(s, Lower) && Has(s, Number) && Has(s, Special)
  }

  /** IsValid: one pass over the runes raising five flags. */
  method IsValid(s: string) returns (ok: bool)
    ensures ok == Strong(s)
  {
    var hasMinLen, hasUpper, hasLower, hasNumber, hasSpecial := false, false, false, false, false;
    if Utf8Len(s) >= 7 {
      hasMinLen := true;
    }
    for i := 0 to |s|
      invariant hasUpper == Has(s[..i], Upper) && hasLower == Has(s[..i], Lower)
      invariant hasNumber == Has(s[..i], Number) && hasSpecial == Has(s[..i], Special)
    {
      assert forall j :: 0 <= j < i ==> s[..i + 1][j] == s[..i][j];
      assert s[..i + 1][i] == s[i];
      match ClassOf(s[i])
      case Upper => hasUpper := true;
      case Lower => hasLower := true;
      case Number => hasNumber := true;
      case Special => hasSpecial := true;
      case NoClass =>
    }
    assert s[..|s|] == s;
    ok := hasMinLen && hasUpper && hasLower && hasNumber && hasSpecial;
  }

  /** Fewer than 7 bytes is never strong, whatever the runes. */
  lemma ShortIsWeak(s: string)
    requires Utf8Len(s) < 7
    ensures !Strong(s)
  {
  }

  /** Flags only go from false to true: appending to a strong password keeps
      it strong. */
  lemma StrongAppend(s: string, t: string)
    requires Strong(s)
    ensures Strong(s + t)
  {
    Utf8LenAppend(s, t);
    forall k | Has(s, k) ensures Has(s + t, k) {
      var i :| 0 <= i < |s| && ClassOf(s[i]) == k;
      assert (s + t)[i] == s[i];
    }
  }

  /** Runes in no class (a space, say) matter only through the length test. */
  lemma NoClassOnlyLength(s: string, t: string)
    requires forall i :: 0 <= i < |t| ==> ClassOf(t[i]) == NoClass
    ensures Strong(s + t) <==>
      Utf8Len(s + t) >= 7 && Has(s, Upper) && Has(s, Lower) && Has(s, Number) && Has(s, Special)
  {
    forall k | k != NoClass ensures Has(s + t, k) <==> Has(s, k) {
      if Has(s + t, k) {
        var i :| 0 <= i < |s + t| && ClassOf((s + t)[i]) == k;
        assert i < |s| && (s + t)[i] == s[i];
      }
      if Has(s, k) {
        var i :| 0 <= i < |s| && ClassOf(s[i]) == k;
        assert (s + t)[i] == s[i];
      }
    }
  }

  /** A class occurs in a concatenation exactly when it occurs in a part. */
  lemma HasAppend(a: string, b: string, k: RuneClass)
    ensures Has(a + b, k) <==> Has(a, k) || Has(b, k)
  {
    if Has(a + b, k) {
      var i :| 0 <= i < |a + b| && ClassOf((a + b)[i]) == k;
      if i < |a| {
        assert (a + b)[i] == a[i];
      } else {
        assert (a + b)[i] == b[i - |a|];
      }
    }
    if Has(a, k) {
      var i :| 0 <= i < |a| && ClassOf(a[i]) == k;
      assert (a + b)[i] == a[i];
    }
    if Has(b, k) {
      var i :| 0 <= i < |b| && ClassOf(b[i]) == k;
      assert (a + b)[|a| + i] == b[i];
    }
  }

  /** The flags and the byte count do not depend on where a rune stands:
      rotating a password (moving a prefix to the end) keeps its strength. */
  lemma StrongRotation(a: string, b: string)
    ensures Strong(a + b) <==> Strong(b + a)
  {
    Utf8LenAppend(a, b);
    Utf8LenAppend(b, a);
    HasAppend(a, b, Upper);
    HasAppend(b, a, Upper);
    HasAppend(a, b, Lower);
    HasAppend(b, a, Lower);
    HasAppend(a, b, Number);
    HasAppend(b, a, Number);
    HasAppend(a, b, Special);
    HasAppend(b, a, Special);
  }
}
