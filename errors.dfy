/** Error values of the three services (shortener/internal/v1/model/error.go,
    auth/internal/v1/model/error.go). A Go `error` is modelled by its text,
    which is all that the controllers inspect; `nil` is the success arm of
    `Result` or `None`. */
module Errors {
  import opened Text

  datatype Option<T> = None | Some(value: T)

  datatype Error = Error(text: string)

  datatype Result<T> = Ok(value: T) | Fail(err: Error)

  datatype ErrorKind = Validation | Type | NotFound | Unknown | Internal

  /** The string constant of each kind. */
  function KindText(k: ErrorKind): (t: string)
    ensures |t| > 0
  {
    match k
    case Validation => "Validation Error"
    case Type => "Type Error"
    case NotFound => "Not Found"
    case Unknown => "Unknown Error"
    case Internal => "Internal Server Error"
  }

  /** `NewError(kind, msg)`: the text is the kind, a colon and a blank, then
      the message. Its text always holds its kind, which is what the
      controllers look for. */
  function NewError(k: ErrorKind, msg: string): (e: Error)
    ensures HasPrefix(e.text, KindText(k)) && Contains(e.text, KindText(k))
    ensures e.text[|KindText(k)|..] == ": " + msg
  {
    var e := Error(KindText(k) + ": " + msg);
    assert e.text[..|KindText(k)|] == KindText(k);
    PrefixContained(e.text, KindText(k));
    e
  }

  /** True when the error carries kind `k` as the controllers test it. */
  predicate HasKind(e: Error, k: ErrorKind) {
    Contains(e.text, KindText(k))
  }

  /** Past its first rune, a kind's text holds none of the five initials. */
  lemma InitialsOnlyFirst(k: ErrorKind, i: int)
    requires 0 < i < |KindText(k)|
    ensures KindText(k)[i] !in "VTNUI"
  {
    match k
    case Validation =>
    case Type =>
    case NotFound =>
    case Unknown =>
    case Internal =>
  }

  /** Each kind's text starts with a capital that only it holds. */
  lemma InitialIsOwn(j: ErrorKind, k: ErrorKind)
    requires j != k
    ensures KindText(j)[0] !in KindText(k)
  {
    var t := KindText(k);
    forall i | 0 < i < |t| ensures t[i] != KindText(j)[0] {
      InitialsOnlyFirst(k, i);
    }
  }

  /** The five kind strings are pairwise distinct. */
  lemma KindTextInjective(j: ErrorKind, k: ErrorKind)
    ensures KindText(j) == KindText(k) <==> j == k
  {
    if j != k {
      InitialIsOwn(j, k);
      assert KindText(j)[0] in KindText(j);
    }
  }

  /** No kind string is a substring of another kind string. */
  lemma KindTextsIndependent(j: ErrorKind, k: ErrorKind)
    requires j != k
    ensures !Contains(KindText(k), KindText(j))
  {
    InitialIsOwn(j, k);
    RuneAbsent(KindText(k), KindText(j), 0);
  }

  /** The runes that start a kind's text. */
  function Initial(k: ErrorKind): char
  {
    KindText(k)[0]
  }

  /** An error built by `NewError(k, msg)` is classified as kind `j` exactly
      when `j` is `k`, provided the message does not hold `j`'s initial
      capital (true of every literal message in the services). */
  lemma NewErrorKind(k: ErrorKind, msg: string, j: ErrorKind)
    requires Initial(j) !in msg
    ensures HasKind(NewError(k, msg), j) <==> j == k
  {
    if j != k {
      var t := NewError(k, msg).text;
      InitialIsOwn(j, k);
      assert t == KindText(k) + (": " + msg);
      assert Initial(j) !in t;
      RuneAbsent(t, KindText(j), 0);
    }
  }
}
