/** The password-reset request of lib/authentication/sendResetUrl.js: the
    subject lookup, the guard on the email, the account query and the write
    of one `resetKeys` document. The reset key (`generateSecureKey`), the
    clock (`Date.now()`) and the order in which the store lists matching
    documents are inputs; the mail itself is reduced to whether sending it
    fails. */
module SendResetUrl {
  import opened JsText
  import opened Firebase
  import FirebaseAuth

  const EnglishSubject := "Password Reset Request - TapIt \U{1F512}"
  const ResetSubjects: map<string, string> := map[
    "en" := EnglishSubject,
    "fr" := "Demande de r\U{E9}initialisation de mot de passe - TapIt \U{1F512}"
  ]

  /** `getResetEmailSubject` (lines 8-15): the subject for a listed
      language, the English one for any other. */
  function GetResetEmailSubject(language: string): (r: string)
    ensures r in ResetSubjects.Values
    ensures language in ResetSubjects ==> r == ResetSubjects[language]
    ensures language != "fr" ==> r == EnglishSubject
  {
    if language in ResetSubjects then ResetSubjects[language] else ResetSubjects["en"]
  }

  const EmailRequired := Thrown("Email address is required to send a reset link.")
  const ResetFailed := Thrown("Failed to send password reset email. Please try again later.")

  /** A reset key lives for one hour (line 53). */
  const KeyLifetimeMs := 3600000

  /** The account document stores this email. */
  predicate HasEmail(account: Document, email: string) {
    "email" in account && account["email"] == Str(email)
  }

  /** `querySnapshot.docs[0]` (lines 33-44): the first document ID, in the
      order the store returns them, of an account with this email. */
  function FirstAccountWithEmail(order: seq<string>, accounts: map<string, Document>, email: string)
    : (id: Option<string>)
    ensures id.Some? ==> id.value in accounts && HasEmail(accounts[id.value], email) && id.value in order
    ensures id.Some? ==>
      exists i :: 0 <= i < |order| && order[i] == id.value
                  && (forall j :: 0 <= j < i ==> !(order[j] in accounts && HasEmail(accounts[order[j]], email)))
    ensures id.None? <==> forall i :: 0 <= i < |order| ==> !(order[i] in accounts && HasEmail(accounts[order[i]], email))
  {
    if order == [] then None
    else if order[0] in accounts && HasEmail(accounts[order[0]], email) then Some(order[0])
    else
      var rest := FirstAccountWithEmail(order[1..], accounts, email);
      assert forall i :: 1 <= i < |order| ==> order[i] == order[1..][i - 1];
      if rest.Some? then
        ghost var k :| 0 <= k < |order[1..]| && order[1..][k] == rest.value
                       && forall j :: 0 <= j < k ==> !(order[1..][j] in accounts && HasEmail(accounts[order[1..][j]], email));
        assert order[k + 1] == rest.value;
        rest
      else rest
  }

  /** When the order lists every account, no match means no account has
      that email. */
  lemma NoMatchMeansNoAccount(order: seq<string>, accounts: map<string, Document>, email: string)
    requires forall id :: id in accounts ==> id in order
    requires FirstAccountWithEmail(order, accounts, email).None?
    ensures forall id :: id in accounts ==> !HasEmail(accounts[id], email)
  {
    forall id | id in accounts
      ensures !HasEmail(accounts[id], email)
    {
      var i :| 0 <= i < |order| && order[i] == id;
    }
  }

  /** The outcomes of the calls after the guard: the query, the key write
      and the mail. */
  datatype ResetFaults = ResetFaults(query: Option<FirebaseError>, write: Option<FirebaseError>, mailFails: bool)

  /** The reset-key document for an account (lines 51-54); `None` when the
      account has no `uid` field, a field value `undefined` that the store
      rejects. */
  function ResetKeyDocument(account: Document, now: int): (d: Option<Document>)
    ensures d.Some? <==> "uid" in account
    ensures d.Some? ==> d.value == map["uid" := account["uid"], "expires" := Int(now + KeyLifetimeMs)]
  {
    if "uid" in account then Some(map["uid" := account["uid"], "expires" := Int(now + KeyLifetimeMs)]) else None
  }

  /** The result of `sendResetUrl`, with the `resetKeys` collection after
      it. */
  datatype ResetStep = ResetStep(result: Result<()>, resetKeys: map<string, Document>)

  /** `sendResetUrl` (lines 22-69) on the collections: the guard before any
      lookup, a quiet success for an unknown email, one key document for the
      first match, and the one generic error for anything that fails after
      the guard, even after the key was stored. */
  function ResetOutcome(order: seq<string>, accounts: map<string, Document>, resetKeys: map<string, Document>,
                        email: Option<string>, key: string, now: int, faults: ResetFaults)
    : (r: ResetStep)
    requires key != "" && '/' !in key
    ensures !Truthy(email) ==> r == ResetStep(Err(EmailRequired), resetKeys)
    ensures r.result.Err? ==> r.result.error in {EmailRequired, ResetFailed}
    ensures r.result == Err(EmailRequired) <==> !Truthy(email)
    ensures Truthy(email) && faults.query.None? && FirstAccountWithEmail(order, accounts, email.value).None? ==>
      r == ResetStep(Ok(()), resetKeys)
    ensures r.resetKeys == resetKeys || r.resetKeys.Keys == resetKeys.Keys + {key}
    ensures r.resetKeys != resetKeys ==>
      && Truthy(email) && faults.query.None? && faults.write.None?
      && var id := FirstAccountWithEmail(order, accounts, email.value);
      && id.Some? && "uid" in accounts[id.value]
      && r.resetKeys == resetKeys[key := ResetKeyDocument(accounts[id.value], now).value]
    ensures faults.mailFails && r.resetKeys != resetKeys ==> r.result == Err(ResetFailed)
    // success exactly when nothing after the guard fails: the query, the key
    // write (including a record without `uid`) and the mail
    ensures r.result.Ok? <==>
      Truthy(email) && faults.query.None?
      && var id := FirstAccountWithEmail(order, accounts, email.value);
         id.None? || ("uid" in accounts[id.value] && faults.write.None? && !faults.mailFails)
    // a registered email whose account has a uid gets its key stored when the calls succeed
    ensures Truthy(email) && faults.query.None? && faults.write.None? ==>
      var id := FirstAccountWithEmail(order, accounts, email.value);
      id.Some? && "uid" in accounts[id.value] ==>
        && r.resetKeys == resetKeys[key := ResetKeyDocument(accounts[id.value], now).value]
        && (r.result.Ok? <==> !faults.mailFails)
  {
    if !Truthy(email) then ResetStep(Err(EmailRequired), resetKeys)
    else if faults.query.Some? then ResetStep(Err(ResetFailed), resetKeys)
    else match FirstAccountWithEmail(order, accounts, email.value)
      case None => ResetStep(Ok(()), resetKeys)
      case Some(id) =>
        match ResetKeyDocument(accounts[id], now)
        case None => ResetStep(Err(ResetFailed), resetKeys)
        case Some(d) =>
          if faults.write.Some? then ResetStep(Err(ResetFailed), resetKeys)
          else
            var stored := resetKeys[key := d];
            if faults.mailFails then ResetStep(Err(ResetFailed), stored) else ResetStep(Ok(()), stored)
  }

  /** A successful request for a registered email stores exactly one key,
      pointing at the first matching account and expiring an hour from now;
      no other key changes. */
  lemma ResetStoresOneKey(order: seq<string>, accounts: map<string, Document>, resetKeys: map<string, Document>,
                          email: string, key: string, now: int, faults: ResetFaults)
    requires key != "" && '/' !in key
    requires FirstAccountWithEmail(order, accounts, email).Some?
    requires ResetOutcome(order, accounts, resetKeys, Some(email), key, now, faults).result.Ok?
    ensures var r := ResetOutcome(order, accounts, resetKeys, Some(email), key, now, faults);
      var id := FirstAccountWithEmail(order, accounts, email).value;
      && key in r.resetKeys
      && r.resetKeys[key]["uid"] == accounts[id]["uid"]
      && r.resetKeys[key]["expires"] == Int(now + KeyLifetimeMs)
      && (forall k :: k in resetKeys && k != key ==> k in r.resetKeys && r.resetKeys[k] == resetKeys[k])
  {
    var id := FirstAccountWithEmail(order, accounts, email).value;
    assert ResetKeyDocument(accounts[id], now).Some?;
  }

  /** An account created by `createUserProfile` stores the identity's email
      (unless `additionalData` overrides it), so a reset request for that
      email finds an account whenever the store lists the new one. */
  lemma CreatedAccountIsFound(order: seq<string>, accounts: map<string, Document>, lookup: map<string, Document>,
                              u: AuthUser, additional: Document, faults: Faults, createdAt: string)
    requires u.email.Some? && "email" !in additional && u.uid in order
    requires FirebaseAuth.CreateProfile(accounts, lookup, u, additional, faults, createdAt).result.Ok?
    requires faults.read.None? && u.uid !in accounts
    ensures var s := FirebaseAuth.CreateProfile(accounts, lookup, u, additional, faults, createdAt);
      FirstAccountWithEmail(order, s.accounts, u.email.value).Some?
  {
    var s := FirebaseAuth.CreateProfile(accounts, lookup, u, additional, faults, createdAt);
    NewProfileHasEmail(u, additional, createdAt);
    var i :| 0 <= i < |order| && order[i] == u.uid;
    assert order[i] in s.accounts && HasEmail(s.accounts[order[i]], u.email.value);
  }

  /** The new record carries the identity's email. */
  lemma NewProfileHasEmail(u: AuthUser, additional: Document, createdAt: string)
    requires u.email.Some? && "email" !in additional
    requires FirebaseAuth.NewProfile(u, additional, createdAt).Ok?
    ensures HasEmail(FirebaseAuth.NewProfile(u, additional, createdAt).value, u.email.value)
  {
  }

  /** lib/authentication/sendResetUrl.js:22-69. */
  method SendResetUrl(db: Database, order: seq<string>, email: Option<string>, key: string, now: int,
                      faults: ResetFaults)
    returns (r: Result<()>)
    requires key != "" && '/' !in key
    modifies db`resetKeys
    ensures var s := ResetOutcome(order, db.accountData, old(db.resetKeys), email, key, now, faults);
      r == s.result && db.resetKeys == s.resetKeys
  {
    if !Truthy(email) {
      return Err(EmailRequired);
    }
    // try
    if faults.query.Some? {
      return Err(ResetFailed);
    }
    var found := FirstAccountWithEmail(order, db.accountData, email.value);
    if found.None? {
      // an unknown email is not revealed
      return Ok(());
    }
    var userData := db.accountData[found.value];
    var d := ResetKeyDocument(userData, now);
    if d.None? || faults.write.Some? {
      return Err(ResetFailed);
    }
    db.resetKeys := db.resetKeys[key := d.value];
    if faults.mailFails {
      return Err(ResetFailed);
    }
    r := Ok(());
  }
}
