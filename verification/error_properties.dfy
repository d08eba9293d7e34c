/**
 * What the error taxonomy promises its callers: which variant each conversion
 * picks and that the cause survives it, which variants carry no cause, and how
 * the displayed texts relate to each other and to the wrapped errors.
 */
module CryptoErrorProperties {
  import opened Wrappers
  import opened ForeignErrors
  import opened CryptoErrors

  // ---------------------------------------------------------------------------
  // Conversions and causes
  // ---------------------------------------------------------------------------

  /** Every `OlmError` that wraps a cause is what the conversion from that cause produces. */
  lemma OlmVariantsAreConversions(e: OlmError)
    ensures e.EventError? ==> OlmFromEvent(e.event) == e
    ensures e.JsonError? ==> OlmFromSerde(e.json) == e
    ensures e.OlmSession? ==> OlmFromSession(e.session) == e
    ensures e.OlmGroupSession? ==> OlmFromGroupSession(e.groupSession) == e
    ensures e.Store? ==> OlmFromStore(e.store) == e
  {
  }

  /** Every `MegolmError` that wraps a cause is what the conversion from that cause produces. */
  lemma MegolmVariantsAreConversions(e: MegolmError)
    ensures e.EventError? ==> MegolmFromEvent(e.event) == e
    ensures e.JsonError? ==> MegolmFromSerde(e.json) == e
    ensures e.OlmGroupSession? ==> MegolmFromGroupSession(e.groupSession) == e
    ensures e.Store? ==> MegolmFromStore(e.store) == e
  {
  }

  /** The wrapped cause determines an `OlmError`: no cause lands in two variants. */
  lemma OlmCauseDeterminesError(a: OlmError, b: OlmError)
    ensures a.WrappedCause() == b.WrappedCause() <==> a == b
  {
  }

  /** The wrapped cause determines a `MegolmError`: no cause lands in two variants. */
  lemma MegolmCauseDeterminesError(a: MegolmError, b: MegolmError)
    ensures a.WrappedCause() == b.WrappedCause() <==> a == b
  {
  }

  /**
   * `SessionWedged` is the one cause-free `OlmError`, and `MissingSession` the one
   * cause-free `MegolmError`: no conversion ever produces either of them.
   */
  lemma LeavesAreFamilySpecific(o: OlmError, m: MegolmError)
    ensures o.WrappedCause().None? <==> o.SessionWedged?
    ensures m.WrappedCause().None? <==> m.MissingSession?
    ensures OlmMessage(OlmError.SessionWedged) != MegolmMessage(MegolmError.MissingSession)
  {
  }

  /**
   * An `OlmSessionError` has no place in the group family: no `MegolmError`
   * wraps one, while every other cause has exactly one variant there.
   */
  lemma MegolmCausesExcludeOlmSession(m: MegolmError, c: Cause)
    ensures c.Session? ==> m.WrappedCause() != Some(c)
    ensures !c.Session? ==> exists e: MegolmError :: e.WrappedCause() == Some(c)
  {
    match c
    case Event(x) => assert MegolmFromEvent(x).WrappedCause() == Some(c);
    case Json(x) => assert MegolmFromSerde(x).WrappedCause() == Some(c);
    case Session(_) =>
    case GroupSession(x) => assert MegolmFromGroupSession(x).WrappedCause() == Some(c);
    case StoreFailure(x) => assert MegolmFromStore(x).WrappedCause() == Some(c);
  }

  // ---------------------------------------------------------------------------
  // Propagation with `?`
  // ---------------------------------------------------------------------------

  /** `?` keeps a success and its value, and keeps a failure a failure. */
  ghost predicate PassesThrough<T, E, F>(r: Result<T, E>, p: Result<T, F>)
  {
    (p.Ok? <==> r.Ok?) && (r.Ok? ==> p.value == r.value)
  }

  /**
   * `?` inside a function returning `OlmResult`, on each lower-level error the
   * family accepts: a value passes through, and an error arrives in the one
   * variant whose wrapped cause is that same error.
   */
  lemma OlmPropagation<T>(
    ev: Result<T, EventError>, js: Result<T, SerdeError>, se: Result<T, OlmSessionError>,
    gs: Result<T, OlmGroupSessionError>, st: Result<T, CryptoStoreError>)
    ensures var p: OlmResult<T> := Propagate(ev, OlmFromEvent);
      PassesThrough(ev, p) && (ev.Err? ==> p.error.WrappedCause() == Some(Cause.Event(ev.error)))
    ensures var p: OlmResult<T> := Propagate(js, OlmFromSerde);
      PassesThrough(js, p) && (js.Err? ==> p.error.WrappedCause() == Some(Cause.Json(js.error)))
    ensures var p: OlmResult<T> := Propagate(se, OlmFromSession);
      PassesThrough(se, p) && (se.Err? ==> p.error.WrappedCause() == Some(Cause.Session(se.error)))
    ensures var p: OlmResult<T> := Propagate(gs, OlmFromGroupSession);
      PassesThrough(gs, p) && (gs.Err? ==> p.error.WrappedCause() == Some(Cause.GroupSession(gs.error)))
    ensures var p: OlmResult<T> := Propagate(st, OlmFromStore);
      PassesThrough(st, p) && (st.Err? ==> p.error.WrappedCause() == Some(Cause.StoreFailure(st.error)))
  {
  }

  /**
   * `?` inside a function returning `MegolmResult`, on each lower-level error the
   * family accepts: a value passes through, and an error arrives in the one
   * variant whose wrapped cause is that same error.
   */
  lemma MegolmPropagation<T>(
    ev: Result<T, EventError>, js: Result<T, SerdeError>,
    gs: Result<T, OlmGroupSessionError>, st: Result<T, CryptoStoreError>)
    ensures var p: MegolmResult<T> := Propagate(ev, MegolmFromEvent);
      PassesThrough(ev, p) && (ev.Err? ==> p.error.WrappedCause() == Some(Cause.Event(ev.error)))
    ensures var p: MegolmResult<T> := Propagate(js, MegolmFromSerde);
      PassesThrough(js, p) && (js.Err? ==> p.error.WrappedCause() == Some(Cause.Json(js.error)))
    ensures var p: MegolmResult<T> := Propagate(gs, MegolmFromGroupSession);
      PassesThrough(gs, p) && (gs.Err? ==> p.error.WrappedCause() == Some(Cause.GroupSession(gs.error)))
    ensures var p: MegolmResult<T> := Propagate(st, MegolmFromStore);
      PassesThrough(st, p) && (st.Err? ==> p.error.WrappedCause() == Some(Cause.StoreFailure(st.error)))
  {
  }

  /** `?` on a `CjsonError` in the signature checker always yields `CanonicalJsonError` over it. */
  lemma CjsonErrorPropagation<T>(r: Result<T, CjsonError>)
    ensures var p := Propagate(r, SignatureFromCjson);
      PassesThrough(r, p) && (r.Err? ==> p == Err(SignatureError.CanonicalJsonError(r.error)))
  {
  }

  // ---------------------------------------------------------------------------
  // Display texts
  // ---------------------------------------------------------------------------

  /** The transparent `OlmError` variants show exactly the wrapped error's text. */
  lemma OlmTransparentVariants(e: EventError, j: SerdeError)
    ensures OlmMessage(OlmFromEvent(e)) == EventMessage(e)
    ensures OlmMessage(OlmFromSerde(j)) == j.Message()
  {
  }

  /** The transparent `MegolmError` variants, `Store` among them, show exactly the wrapped text. */
  lemma MegolmTransparentVariants(e: EventError, j: SerdeError, s: CryptoStoreError)
    ensures MegolmMessage(MegolmFromEvent(e)) == EventMessage(e)
    ensures MegolmMessage(MegolmFromSerde(j)) == j.Message()
    ensures MegolmMessage(MegolmFromStore(s)) == s.Message()
  {
  }

  /**
   * `OlmError::Store` is not transparent: it shows a fixed prefix and then the
   * store's text, which can be read back from it, so it never shows the same
   * text as `MegolmError::Store` over the same store error.
   */
  lemma OlmStoreIsPrefixed(s: CryptoStoreError)
    ensures OlmStorePrefix <= OlmMessage(OlmFromStore(s))
    ensures OlmMessage(OlmFromStore(s))[|OlmStorePrefix|..] == s.Message()
    ensures OlmMessage(OlmFromStore(s)) != MegolmMessage(MegolmFromStore(s))
  {
  }

  /**
   * `OlmError::OlmSession` and `OlmError::OlmGroupSession` use the same prefix:
   * over errors with the same text they show the same text, and only the
   * variant tells them apart.
   */
  lemma OlmSessionVariantsShareText(a: OlmSessionError, b: OlmGroupSessionError)
    ensures OlmSessionPrefix <= OlmMessage(OlmFromSession(a))
    ensures OlmMessage(OlmFromSession(a))[|OlmSessionPrefix|..] == a.Message()
    ensures OlmSessionPrefix <= OlmMessage(OlmFromGroupSession(b))
    ensures OlmMessage(OlmFromGroupSession(b))[|OlmSessionPrefix|..] == b.Message()
    ensures OlmMessage(OlmFromSession(a)) == OlmMessage(OlmFromGroupSession(b)) <==> a.Message() == b.Message()
    ensures OlmFromSession(a) != OlmFromGroupSession(b)
  {
  }

  /**
   * The same group-session error is shown differently by the two families:
   * `MegolmError` says "group session" where `OlmError` says "Session".
   */
  lemma GroupSessionTextDependsOnFamily(g: OlmGroupSessionError)
    ensures MegolmGroupSessionPrefix <= MegolmMessage(MegolmFromGroupSession(g))
    ensures MegolmMessage(MegolmFromGroupSession(g))[|MegolmGroupSessionPrefix|..] == g.Message()
    ensures OlmMessage(OlmFromGroupSession(g)) != MegolmMessage(MegolmFromGroupSession(g))
  {
  }

  /**
   * A `MegolmError::Store` over a store error whose own text is the
   * `MissingSession` sentence shows exactly that sentence: the text alone does
   * not tell a recoverable missing key from a store failure. Whether the store
   * ever produces such a text is outside this model.
   */
  lemma MegolmStoreCanMimicMissingSession()
    ensures exists s: CryptoStoreError ::
      MegolmMessage(MegolmFromStore(s)) == MegolmMessage(MegolmError.MissingSession)
  {
    var s := CryptoStoreError(MissingSessionText);
    assert MegolmMessage(MegolmFromStore(s)) == MissingSessionText;
  }

  /**
   * An `EventError` is determined by its text: the fixed sentences are pairwise
   * distinct, none of them reads like a missing-field report, and a missing-field
   * report names its field.
   */
  lemma EventMessageInjective(a: EventError, b: EventError)
    ensures EventMessage(a) == EventMessage(b) <==> a == b
  {
  }

  /** `EventError::NotAnObject` and `SignatureError::NotAnObject` show the same sentence. */
  lemma NotAnObjectTextShared()
    ensures EventMessage(EventError.NotAnObject) == SignatureMessage(SignatureError.NotAnObject)
    ensures EventMessage(EventError.NotAnObject) == NotAnObjectText
  {
  }

  /**
   * Two signature errors show the same text exactly when they are the same
   * error or both `CanonicalJsonError`, whose text does not include its cause.
   */
  lemma SignatureMessageIdentifiesKind(a: SignatureError, b: SignatureError)
    ensures SignatureMessage(a) == SignatureMessage(b) <==>
      (a == b || (a.CanonicalJsonError? && b.CanonicalJsonError?))
  {
  }
}
