/** The closed error taxonomy of `qpgp-core` and its `Display` rendering.

    Every error renders as a fixed prefix naming its variant followed by the
    payload text, unchanged. `ParseDisplay` is an independent inverse of the
    rendering; the round-trip lemmas below show that rendering loses nothing:
    each error is recoverable from its text, so two errors render equally
    only when they are the same error. */
module QpgpErrors {
  import opened Wrappers

  /** `NotImplemented` names a missing feature (a `&'static str` in the
      source); the other three carry a free-form detail. */
  datatype QpgpError =
    | NotImplemented(msg: string)
    | InvalidInput(msg: string)
    | Backend(msg: string)
    | Io(msg: string)

  const NotImplementedPrefix: string := "not implemented: "
  const InvalidInputPrefix: string := "invalid input: "
  const BackendPrefix: string := "backend error: "
  const IoPrefix: string := "io error: "

  /** The fixed text that introduces an error of `e`'s variant. */
  function Prefix(e: QpgpError): string {
    match e
    case NotImplemented(_) => NotImplementedPrefix
    case InvalidInput(_) => InvalidInputPrefix
    case Backend(_) => BackendPrefix
    case Io(_) => IoPrefix
  }

  /** `QpgpError::not_implemented`: the error reporting that `feature` is
      missing, which renders as that feature's name after the fixed prefix. */
  function NotImplementedError(feature: string): (e: QpgpError)
    ensures e.NotImplemented?
    ensures e.msg == feature
    ensures Display(e) == "not implemented: " + feature
  {
    NotImplemented(feature)
  }

  /** `Display::fmt` of `QpgpError`: the variant's prefix, then the payload
      verbatim. The payload is always the tail of the text, after a
      non-empty prefix ending in ": ". */
  function Display(e: QpgpError): (s: string)
    ensures |s| > |e.msg| + 1
    ensures s[|s| - |e.msg|..] == e.msg
    ensures s[|s| - |e.msg| - 2..|s| - |e.msg|] == ": "
  {
    match e
    case NotImplemented(m) => "not implemented: " + m
    case InvalidInput(m) => "invalid input: " + m
    case Backend(m) => "backend error: " + m
    case Io(m) => "io error: " + m
  }

  /** Recovers an error from its rendered text, trying each variant's prefix
      in turn; text that starts with none of them is not a rendered error. */
  function ParseDisplay(s: string): Option<QpgpError> {
    if NotImplementedPrefix <= s then
      Some(NotImplemented(s[|NotImplementedPrefix|..]))
    else if InvalidInputPrefix <= s then
      Some(InvalidInput(s[|InvalidInputPrefix|..]))
    else if BackendPrefix <= s then
      Some(Backend(s[|BackendPrefix|..]))
    else if IoPrefix <= s then
      Some(Io(s[|IoPrefix|..]))
    else
      None
  }

  /** The rendering is exactly the variant's prefix followed by the payload. */
  lemma DisplayIsPrefixThenPayload(e: QpgpError)
    ensures Display(e) == Prefix(e) + e.msg
    ensures Prefix(e) <= Display(e)
  {
  }

  /** No variant's prefix begins another variant's rendering: the four
      prefixes already differ within their first two characters. */
  lemma PrefixesAreIncomparable(a: QpgpError, b: QpgpError)
    requires Prefix(a) != Prefix(b)
    ensures !(Prefix(a) <= Display(b))
  {
    DisplayIsPrefixThenPayload(b);
    var pa, pb := Prefix(a), Prefix(b);
    assert pa[0] != pb[0] || pa[1] != pb[1];
    assert Display(b)[0] == pb[0] && Display(b)[1] == pb[1];
  }

  /** Parsing the rendering of any error gives back that error. */
  lemma ParseDisplayInvertsDisplay(e: QpgpError)
    ensures ParseDisplay(Display(e)) == Some(e)
  {
    DisplayIsPrefixThenPayload(e);
    var s := Display(e);
    match e
    case NotImplemented(m) =>
      assert s[|NotImplementedPrefix|..] == m;
    case InvalidInput(m) =>
      PrefixesAreIncomparable(NotImplemented(""), e);
      assert s[|InvalidInputPrefix|..] == m;
    case Backend(m) =>
      PrefixesAreIncomparable(NotImplemented(""), e);
      PrefixesAreIncomparable(InvalidInput(""), e);
      assert s[|BackendPrefix|..] == m;
    case Io(m) =>
      PrefixesAreIncomparable(NotImplemented(""), e);
      PrefixesAreIncomparable(InvalidInput(""), e);
      PrefixesAreIncomparable(Backend(""), e);
      assert s[|IoPrefix|..] == m;
  }

  /** Whatever text parses as an error is exactly that error's rendering. */
  lemma DisplayInvertsParseDisplay(s: string, e: QpgpError)
    requires ParseDisplay(s) == Some(e)
    ensures Display(e) == s
  {
  }

  /** Text is the rendering of `e` exactly when it parses as `e`. */
  lemma DisplayMatchesParse(s: string, e: QpgpError)
    ensures Display(e) == s <==> ParseDisplay(s) == Some(e)
  {
    if Display(e) == s {
      ParseDisplayInvertsDisplay(e);
    }
    if ParseDisplay(s) == Some(e) {
      DisplayInvertsParseDisplay(s, e);
    }
  }

  /** Two errors render to the same text only if they are the same variant
      carrying the same payload. */
  lemma DisplayIsInjective(a: QpgpError, b: QpgpError)
    ensures Display(a) == Display(b) ==> a == b
  {
    ParseDisplayInvertsDisplay(a);
    ParseDisplayInvertsDisplay(b);
  }

  /** The payload can be read back off the rendering by dropping the
      variant's prefix. */
  lemma PayloadIsRecoverable(e: QpgpError)
    ensures Display(e)[|Prefix(e)|..] == e.msg
  {
  }

  /** The four renderings asserted by the `encrypto-core` crate's test of
      `EncryptoError`, whose rendering table is the same as `QpgpError`'s. */
  lemma DisplayTableExamples()
    ensures Display(NotImplementedError("feature")) == "not implemented: feature"
    ensures Display(InvalidInput("bad input")) == "invalid input: bad input"
    ensures Display(Backend("oops")) == "backend error: oops"
    ensures Display(Io("disk")) == "io error: disk"
  {
  }
}
