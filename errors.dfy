/** Translation of thrown values into the messages the procedures report to the user. */
module Errors {
  import opened Strings

  /** What a failed step threw: an `Error` object with its message, or any other value. */
  datatype Thrown = ErrorObject(message: string) | NonError

  // The user-facing texts, written as the short phrases that the letter lemmas
  // below go through one at a time.
  const ReconnectMessage :=
    "Your Google account " + "session has expired. " + "Please reconnect " + "your Google account."
  const PermissionsMessage :=
    "Insufficient " + "permissions. " + "Please reconnect " + "your Google account " +
    "with proper " + "calendar access."
  const SyncFallback := "Failed to fetch calendar events"

  /** The provider's markers of a revoked or expired authorisation. */
  predicate IsExpiredGrant(message: string) {
    Contains(message, "invalid_grant") || Contains(message, "Token has been expired")
  }

  /** The provider's marker of a missing authorisation scope. */
  predicate IsMissingScope(message: string) {
    Contains(message, "insufficient authentication scopes")
  }

  /**
   * The message the event sync reports: expired grants first, then missing
   * scopes, else the original message; a thrown non-`Error` gets the fallback.
   */
  function SyncErrorMessage(e: Thrown): (msg: string)
    ensures e.ErrorObject? && IsExpiredGrant(e.message) ==> msg == ReconnectMessage
    ensures e.ErrorObject? && !IsExpiredGrant(e.message) && IsMissingScope(e.message) ==>
      msg == PermissionsMessage
    ensures e.ErrorObject? && !IsExpiredGrant(e.message) && !IsMissingScope(e.message) ==>
      msg == e.message
    ensures e.NonError? ==> msg == SyncFallback
  {
    match e
    case NonError => SyncFallback
    case ErrorObject(m) =>
      if IsExpiredGrant(m) then ReconnectMessage
      else if IsMissingScope(m) then PermissionsMessage
      else m
  }

  // ---------------------------------------------------------------------------
  // Properties of the translation
  // ---------------------------------------------------------------------------

  /** A text without `_` and `T` cannot carry an expired-grant marker. */
  lemma NoExpiredGrantWithoutItsLetters(message: string)
    requires '_' !in message && 'T' !in message
    ensures !IsExpiredGrant(message)
  {
    MissingCharNotContained(message, "invalid_grant", '_');
    MissingCharNotContained(message, "Token has been expired", 'T');
  }

  /** A text lacking one letter of the missing-scope marker cannot carry it. */
  lemma NoMissingScopeWithoutItsLetter(message: string, c: char)
    requires c in "insufficient authentication scopes" && c !in message
    ensures !IsMissingScope(message)
  {
    MissingCharNotContained(message, "insufficient authentication scopes", c);
  }

  // Letters missing from the user-facing texts, one fact per lemma, piece by piece.
  lemma ReconnectLacksUnderscore()
    ensures '_' !in ReconnectMessage
  {
    assert '_' !in "Your Google account ";
    assert '_' !in "session has expired. ";
    assert '_' !in "Please reconnect ";
    assert '_' !in "your Google account.";
  }

  lemma ReconnectLacksCapitalT()
    ensures 'T' !in ReconnectMessage
  {
    assert 'T' !in "Your Google account ";
    assert 'T' !in "session has expired. ";
    assert 'T' !in "Please reconnect ";
    assert 'T' !in "your Google account.";
  }

  lemma ReconnectLacksLetterF()
    ensures 'f' !in ReconnectMessage
  {
    assert 'f' !in "Your Google account ";
    assert 'f' !in "session has expired. ";
    assert 'f' !in "Please reconnect ";
    assert 'f' !in "your Google account.";
  }

  lemma PermissionsLacksUnderscore()
    ensures '_' !in PermissionsMessage
  {
    assert '_' !in "Insufficient ";
    assert '_' !in "permissions. ";
    assert '_' !in "Please reconnect ";
    assert '_' !in "your Google account ";
    assert '_' !in "with proper ";
    assert '_' !in "calendar access.";
  }

  lemma PermissionsLacksCapitalT()
    ensures 'T' !in PermissionsMessage
  {
    assert 'T' !in "Insufficient ";
    assert 'T' !in "permissions. ";
    assert 'T' !in "Please reconnect ";
    assert 'T' !in "your Google account ";
    assert 'T' !in "with proper ";
    assert 'T' !in "calendar access.";
  }

  lemma FallbackLacksUnderscore() ensures '_' !in SyncFallback {}
  lemma FallbackLacksCapitalT() ensures 'T' !in SyncFallback {}
  lemma FallbackLacksLetterP() ensures 'p' !in SyncFallback {}

  /** The reconnect text carries neither expired-grant marker. */
  lemma ReconnectMessageUnmarked()
    ensures !IsExpiredGrant(ReconnectMessage)
  {
    ReconnectLacksUnderscore();
    ReconnectLacksCapitalT();
    NoExpiredGrantWithoutItsLetters(ReconnectMessage);
  }

  /** The reconnect text does not carry the missing-scope marker. */
  lemma ReconnectMessageHasNoScopeMarker()
    ensures !IsMissingScope(ReconnectMessage)
  {
    ReconnectLacksLetterF();
    NoMissingScopeWithoutItsLetter(ReconnectMessage, 'f');
  }

  /** The permissions text carries neither expired-grant marker. */
  lemma PermissionsMessageUnmarked()
    ensures !IsExpiredGrant(PermissionsMessage)
  {
    PermissionsLacksUnderscore();
    PermissionsLacksCapitalT();
    NoExpiredGrantWithoutItsLetters(PermissionsMessage);
  }

  /** The sync fallback text carries neither expired-grant marker. */
  lemma SyncFallbackUnmarked()
    ensures !IsExpiredGrant(SyncFallback)
  {
    FallbackLacksUnderscore();
    FallbackLacksCapitalT();
    NoExpiredGrantWithoutItsLetters(SyncFallback);
  }

  /** The sync fallback text does not carry the missing-scope marker. */
  lemma SyncFallbackHasNoScopeMarker()
    ensures !IsMissingScope(SyncFallback)
  {
    FallbackLacksLetterP();
    NoMissingScopeWithoutItsLetter(SyncFallback, 'p');
  }

  /**
   * The reconnect message is reported exactly for an `Error` whose message
   * carries an expired-grant marker, or that already was the reconnect message.
   */
  lemma ReconnectIff(e: Thrown)
    ensures SyncErrorMessage(e) == ReconnectMessage <==>
      e.ErrorObject? && (IsExpiredGrant(e.message) || e.message == ReconnectMessage)
  {
    ReconnectMessageUnmarked();
    ReconnectMessageHasNoScopeMarker();
  }

  /**
   * The permissions message is reported exactly for an `Error` whose message
   * carries the missing-scope marker and no expired-grant marker (the expiry
   * check wins), or that already was the permissions message.
   */
  lemma PermissionsIff(e: Thrown)
    ensures SyncErrorMessage(e) == PermissionsMessage <==>
      e.ErrorObject? &&
      ((!IsExpiredGrant(e.message) && IsMissingScope(e.message)) || e.message == PermissionsMessage)
  {
    PermissionsMessageUnmarked();
  }

  /** Translating an already translated message, as an `Error`, changes nothing. */
  lemma TranslationIsStable(e: Thrown)
    ensures SyncErrorMessage(ErrorObject(SyncErrorMessage(e))) == SyncErrorMessage(e)
  {
    match e
    case NonError =>
      SyncFallbackUnmarked();
      SyncFallbackHasNoScopeMarker();
    case ErrorObject(m) =>
      if IsExpiredGrant(m) {
        ReconnectMessageUnmarked();
        ReconnectMessageHasNoScopeMarker();
      } else if IsMissingScope(m) {
        PermissionsMessageUnmarked();
      }
  }
}
