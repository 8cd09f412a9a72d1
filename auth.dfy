/**
 * Sign-in by magic link: issuing a link for a normalised email address,
 * and verifying it once, before it expires, which finds or creates the
 * user with that address.
 */
module Auth {
  import opened Wrappers
  import opened Json
  import opened Strings
  import opened Errors
  import opened Rbac
  import opened Store
  import opened Validators

  /** Fifteen minutes: how long a magic link stays valid after it is issued. */
  const LinkLifetimeMs: int := 15 * 60 * 1000

  /**
   * `magicLinkValidators`: the trimmed email is required, must pass
   * `isEmail` (express-validator's address check) and have at most 255
   * characters.
   */
  function ValidateEmail(body: Body, isEmail: string -> bool): (err: Option<string>)
    ensures err.None? <==> var email := TrimmedField(body, "email");
                           email != "" && isEmail(email) && |email| <= 255
    ensures err == Some("Email required") <==> TrimmedField(body, "email") == ""
    ensures err == Some("Valid email required") <==>
              TrimmedField(body, "email") != "" && !isEmail(TrimmedField(body, "email"))
  {
    var email := TrimmedField(body, "email");
    if email == "" then Some("Email required")
    else if !isEmail(email) then Some("Valid email required")
    else if |email| > 255 then Some("Invalid value")
    else None
  }

  /** The address a link is issued for: the sanitised email, trimmed and lower-cased. */
  function NormalisedEmail(body: Body): string {
    ToLower(Trim(TrimmedField(body, "email")))
  }

  /** A normalised address has no white space at either end and no upper-case ASCII letter. */
  lemma NormalisedEmailIsCanonical(body: Body)
    ensures Trim(NormalisedEmail(body)) == NormalisedEmail(body)
    ensures ToLower(NormalisedEmail(body)) == NormalisedEmail(body)
    ensures |NormalisedEmail(body)| <= |ValidatorString(Field(body, "email"))|
  {
    var raw := ValidatorString(Field(body, "email"));
    TrimIdempotent(raw);
    TrimSpec(raw);
    ToLowerKeepsTrimmed(Trim(raw));
    ToLowerIdempotent(Trim(raw));
  }

  /**
   * `POST /auth/magic-link`: stores a link for the normalised address,
   * valid for fifteen minutes from `now`, under `token` (the random token
   * the handler draws).
   */
  method IssueMagicLink(db: Db, body: Body, isEmail: string -> bool, token: string, now: Time) returns (r: Result<string>)
    requires token !in db.magicLinks
    modifies db`magicLinks
    ensures var err := ValidateEmail(body, isEmail);
      && (err.Some? ==> r == Err(BadRequest(err)) && db.magicLinks == old(db.magicLinks))
      && (err.None? ==>
            && r == Ok("Magic link sent")
            && db.magicLinks == old(db.magicLinks)[token := MagicLink(NormalisedEmail(body), now + LinkLifetimeMs, None)])
  {
    var err := ValidateEmail(body, isEmail);
    if err.Some? {
      return Err(BadRequest(err));
    }
    db.magicLinks := db.magicLinks[token := MagicLink(NormalisedEmail(body), now + LinkLifetimeMs, None)];
    r := Ok("Magic link sent");
  }

  /** `verifyValidators`: a non-empty string token of at most 500 characters. */
  function ValidateVerifyToken(body: Body): (err: Option<string>)
    ensures err.None? <==> "token" in body && body["token"].JStr? && 0 < |body["token"].s| <= 500
    ensures err == Some("Token required") <==> ValidatorString(Field(body, "token")) == ""
  {
    if ValidatorString(Field(body, "token")) == "" then Some("Token required")
    else if !body["token"].JStr? then Some("Invalid value")
    else if |body["token"].s| > 500 then Some("Invalid value")
    else None
  }

  /** A link can still be used: it exists, has not been used, and `now` is not past its expiry. */
  predicate LinkUsable(links: map<string, MagicLink>, token: string, now: Time) {
    token in links && links[token].usedAt.None? && !(now > links[token].expiresAt)
  }

  /** A freshly issued link works up to and including the instant fifteen minutes later, and not after. */
  lemma IssuedLinkLifetime(links: map<string, MagicLink>, token: string, email: string, issued: Time, now: Time)
    ensures LinkUsable(links[token := MagicLink(email, issued + LinkLifetimeMs, None)], token, now)
            <==> now <= issued + 900000
  {
  }

  /** The first user with address `email`. */
  function FindUser(users: seq<User>, email: string): (r: Option<nat>)
    ensures r.Some? ==> r.value < |users| && users[r.value].email == email
    ensures r.Some? ==> forall i :: 0 <= i < r.value ==> users[i].email != email
    ensures r.None? <==> forall i :: 0 <= i < |users| ==> users[i].email != email
  {
    if users == [] then None
    else
      match FindUser(users[..|users| - 1], email)
      case Some(i) => Some(i)
      case None => if users[|users| - 1].email == email then Some(|users| - 1) else None
  }

  /**
   * Find-or-create by address: the table after the lookup (with a new
   * user appended when none has the address) and the user's id.
   */
  function FindOrCreateUser(users: seq<User>, email: string): (r: (seq<User>, nat))
    ensures r.1 < |r.0| && r.0[r.1].email == email
    ensures FindUser(users, email).Some? ==> r == (users, FindUser(users, email).value)
    ensures FindUser(users, email).None? ==> r.0 == users + [User(email)]
    ensures UniqueEmails(users) ==> UniqueEmails(r.0)
  {
    match FindUser(users, email)
    case Some(i) => (users, i)
    case None => (users + [User(email)], |users|)
  }

  /** Signing in twice with one address yields the same user and creates no second one. */
  lemma FindOrCreateIdempotent(users: seq<User>, email: string)
    ensures var (after, id) := FindOrCreateUser(users, email);
      FindOrCreateUser(after, email) == (after, id)
  {
    var (after, id) := FindOrCreateUser(users, email);
    if FindUser(users, email).None? {
      var again := FindUser(after, email);
      assert again.Some?;
      assert again.value == id;
    }
  }

  /**
   * `POST /auth/verify`: a usable link is marked used at `now` and signs
   * in the user with its address, created if there is none; anything else
   * is 400 and changes nothing.
   */
  method VerifyMagicLink(db: Db, body: Body, now: Time) returns (r: Result<UserId>)
    requires db.Valid()
    modifies db`magicLinks, db`users
    ensures db.Valid()
    ensures ValidateVerifyToken(body).Some? ==> r == Err(BadRequest(ValidateVerifyToken(body)))
    ensures ValidateVerifyToken(body).None? && !LinkUsable(old(db.magicLinks), body["token"].s, now) ==>
              r == Err(BadRequest(Some("Invalid or expired link")))
    ensures ValidateVerifyToken(body).None? && LinkUsable(old(db.magicLinks), body["token"].s, now) ==>
              var token := body["token"].s;
              var link := old(db.magicLinks)[token];
              && db.magicLinks == old(db.magicLinks)[token := link.(usedAt := Some(now))]
              && r.Ok? && (db.users, r.value) == FindOrCreateUser(old(db.users), link.email)
    ensures r.Err? ==> db.magicLinks == old(db.magicLinks) && db.users == old(db.users)
  {
    var err := ValidateVerifyToken(body);
    if err.Some? {
      return Err(BadRequest(err));
    }
    var token := body["token"].s;
    if !(token in db.magicLinks) || db.magicLinks[token].usedAt.Some? || now > db.magicLinks[token].expiresAt {
      return Err(BadRequest(Some("Invalid or expired link")));
    }
    var link := db.magicLinks[token];
    db.magicLinks := db.magicLinks[token := link.(usedAt := Some(now))];
    var found := FindUser(db.users, link.email);
    if found.None? {
      db.users := db.users + [User(link.email)];
      r := Ok(|db.users| - 1);
    } else {
      r := Ok(found.value);
    }
  }

  /** Once verified, a link never verifies again. */
  lemma VerifiedLinkIsSpent(links: map<string, MagicLink>, token: string, used: Time, later: Time)
    requires token in links
    ensures !LinkUsable(links[token := links[token].(usedAt := Some(used))], token, later)
  {
  }
}
