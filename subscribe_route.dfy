/**
 * The lead-capture endpoint (`POST /api/subscribe`): the honeypot check, the
 * loose email pattern, the case-insensitive de-duplicating append to the
 * lead file, and the sequencing of the notification and audience steps.
 *
 * The lead file is a value (what `JSON.parse` made of it) passed in and
 * returned; the clock and the user-agent header are parameters; the email
 * provider is reduced to the answers it gives (its audience list and the id
 * of an audience it creates) and to which of its calls are made.
 */
module Subscribe {
  import opened Wrappers
  import opened Store

  /* ---------------------------------------------------------------------- */
  /* Case-insensitive comparison                                             */
  /* ---------------------------------------------------------------------- */

  /** `toLowerCase`, restricted to ASCII: A-Z become a-z, every other character is kept. */
  function LowerChar(c: char): char {
    if 'A' <= c <= 'Z' then (c as int + 32) as char else c
  }

  function Lower(s: string): (r: string)
    ensures |r| == |s|
  {
    seq(|s|, i requires 0 <= i < |s| => LowerChar(s[i]))
  }

  /** Lowering twice is lowering once. */
  lemma LowerIdempotent(s: string)
    ensures Lower(Lower(s)) == Lower(s)
  {
    assert forall i :: 0 <= i < |s| ==> LowerChar(LowerChar(s[i])) == LowerChar(s[i]);
  }

  /** `l.email?.toLowerCase() === email.toLowerCase()`: a record without an email never matches. */
  predicate SameEmail(l: Lead, email: string) {
    l.email.Some? && Lower(l.email.value) == Lower(email)
  }

  /** Some stored record has this email, up to case. */
  predicate HasEmail(leads: seq<Lead>, email: string) {
    exists i :: 0 <= i < |leads| && SameEmail(leads[i], email)
  }

  /** The store invariant: no two records carry case-insensitively equal emails. */
  predicate NoDuplicateEmails(leads: seq<Lead>) {
    forall i, j :: 0 <= i < j < |leads| && leads[i].email.Some? ==>
      !SameEmail(leads[j], leads[i].email.value)
  }

  /* ---------------------------------------------------------------------- */
  /* The de-duplicating append                                               */
  /* ---------------------------------------------------------------------- */

  /** The record list after appending `email`: unchanged when it is already present. */
  function Appended(leads: seq<Lead>, email: string, createdAt: Option<string>, ua: Option<string>)
    : (r: seq<Lead>)
    ensures r == leads <==> HasEmail(leads, email)
  {
    if HasEmail(leads, email) then leads else leads + [Lead(Some(email), createdAt, ua)]
  }

  /** `leads.find(...)`: the index of the first record whose email matches, up to case. */
  method FindLead(leads: seq<Lead>, email: string) returns (found: Option<nat>)
    ensures found.Some? ==> found.value < |leads| && SameEmail(leads[found.value], email)
    ensures found.Some? ==> forall j :: 0 <= j < found.value ==> !SameEmail(leads[j], email)
    ensures found.None? <==> !HasEmail(leads, email)
  {
    var key := Lower(email);
    var i := 0;
    while i < |leads|
      invariant 0 <= i <= |leads|
      invariant forall j :: 0 <= j < i ==> !SameEmail(leads[j], email)
    {
      var l := leads[i];
      if l.email.Some? && Lower(l.email.value) == key {
        return Some(i);
      }
      i := i + 1;
    }
    return None;
  }

  /**
   * `appendLead`: read the file (a missing, unparsable or non-array file
   * reads as no records), and unless a record already has the email, push
   * the new record and rewrite the file. Returns the file afterwards and
   * whether it was written.
   */
  method AppendLead(file: StoreFile, email: string, createdAt: Option<string>, ua: Option<string>)
    returns (file': StoreFile, wrote: bool)
    ensures wrote <==> !HasEmail(ReadLeads(file), email)
    ensures wrote ==> file' == Records(ReadLeads(file) + [Lead(Some(email), createdAt, ua)])
    ensures !wrote ==> file' == file
    ensures !file.Records? ==> file' == Records([Lead(Some(email), createdAt, ua)])
    ensures ReadLeads(file') == Appended(ReadLeads(file), email, createdAt, ua)
  {
    var leads := ReadLeads(file);
    var found := FindLead(leads, email);
    if found.None? {
      leads := leads + [Lead(Some(email), createdAt, ua)];
      file', wrote := Records(leads), true;
    } else {
      file', wrote := file, false;
    }
  }

  /** Appending keeps the store free of case-insensitive duplicates. */
  lemma AppendPreservesNoDuplicates(leads: seq<Lead>, email: string,
                                    createdAt: Option<string>, ua: Option<string>)
    requires NoDuplicateEmails(leads)
    ensures NoDuplicateEmails(Appended(leads, email, createdAt, ua))
  {
    if !HasEmail(leads, email) {
      var r := Appended(leads, email, createdAt, ua);
      forall i, j | 0 <= i < j < |r| && r[i].email.Some?
        ensures !SameEmail(r[j], r[i].email.value)
      {
        if j == |leads| {
          assert !SameEmail(leads[i], email);
        }
      }
    }
  }

  /**
   * Appending never touches the existing records: they stay, in order, and at
   * most the one new record follows them; afterwards the email is present.
   */
  lemma AppendKeepsExisting(leads: seq<Lead>, email: string,
                            createdAt: Option<string>, ua: Option<string>)
    ensures var r := Appended(leads, email, createdAt, ua);
      |leads| <= |r| <= |leads| + 1 && r[..|leads|] == leads && HasEmail(r, email)
  {
    var r := Appended(leads, email, createdAt, ua);
    if !HasEmail(leads, email) {
      assert SameEmail(r[|leads|], email);
    }
    assert r[..|leads|] == leads;
  }

  /**
   * Submitting the same address again, in any case variant and with any
   * metadata, leaves the store as the first submission left it (so the stored
   * email keeps the casing of the first submission).
   */
  lemma AppendIdempotent(leads: seq<Lead>, email: string, email': string,
                         createdAt: Option<string>, ua: Option<string>,
                         createdAt': Option<string>, ua': Option<string>)
    requires Lower(email) == Lower(email')
    ensures var once := Appended(leads, email, createdAt, ua);
      Appended(once, email', createdAt', ua') == once
  {
    var once := Appended(leads, email, createdAt, ua);
    if HasEmail(leads, email) {
      var i :| 0 <= i < |leads| && SameEmail(leads[i], email);
      assert SameEmail(leads[i], email');
    } else {
      assert SameEmail(once[|leads|], email');
    }
  }

  /**
   * In a duplicate-free store, after an append exactly one record carries the
   * email (up to case).
   */
  lemma AppendLeavesExactlyOne(leads: seq<Lead>, email: string,
                               createdAt: Option<string>, ua: Option<string>)
    requires NoDuplicateEmails(leads)
    ensures var r := Appended(leads, email, createdAt, ua);
      HasEmail(r, email)
      && forall i, j :: 0 <= i < |r| && 0 <= j < |r| && SameEmail(r[i], email) && SameEmail(r[j], email)
           ==> i == j
  {
    AppendKeepsExisting(leads, email, createdAt, ua);
    AppendPreservesNoDuplicates(leads, email, createdAt, ua);
  }

  /* ---------------------------------------------------------------------- */
  /* The email pattern /.+@.+\..+/ (unanchored)                               */
  /* ---------------------------------------------------------------------- */

  /** The characters a regular-expression `.` does not match. */
  predicate IsLineTerminator(c: char) {
    c == '\n' || c == '\r' || c == '\U{2028}' || c == '\U{2029}'
  }

  /**
   * The pattern matches with its `@` at `at` and its `\.` at `dot`: one
   * character before the `@`, one between the `@` and the dot, one after the
   * dot, and none of the characters in that stretch a line terminator.
   */
  ghost predicate MatchAt(s: string, at: int, dot: int) {
    && 1 <= at && at + 2 <= dot && dot + 2 <= |s|
    && s[at] == '@' && s[dot] == '.'
    && forall k :: at - 1 <= k <= dot + 1 ==> !IsLineTerminator(s[k])
  }

  ghost predicate MatchesEmailPattern(s: string) {
    exists at, dot :: MatchAt(s, at, dot)
  }

  /**
   * `/.+@.+\..+/.test(s)`, by one left-to-right scan: it remembers where the
   * current line starts and the first `@` on it that has a character before
   * it; a dot at least two places after that `@`, followed by one more
   * character on the same line, completes a match.
   */
  method CheckEmail(s: string) returns (ok: bool)
    ensures ok <==> MatchesEmailPattern(s)
  {
    var lineStart := 0;
    var firstAt: Option<nat> := None;
    var i := 0;
    while i < |s|
      invariant 0 <= lineStart <= i <= |s|
      invariant forall k :: lineStart <= k < i ==> !IsLineTerminator(s[k])
      invariant lineStart > 0 ==> IsLineTerminator(s[lineStart - 1])
      invariant firstAt.Some? ==> lineStart + 1 <= firstAt.value < i && s[firstAt.value] == '@'
      invariant forall a :: lineStart + 1 <= a < i && s[a] == '@' ==> firstAt.Some? && firstAt.value <= a
      invariant forall at, dot :: dot < i ==> !MatchAt(s, at, dot)
    {
      var c := s[i];
      if IsLineTerminator(c) {
        lineStart, firstAt := i + 1, None;
      } else {
        if c == '.' && firstAt.Some? && firstAt.value + 2 <= i && i + 1 < |s|
           && !IsLineTerminator(s[i + 1]) {
          assert MatchAt(s, firstAt.value, i);
          return true;
        }
        if c == '@' && firstAt.None? && lineStart + 1 <= i {
          firstAt := Some(i);
        }
      }
      i := i + 1;
    }
    return false;
  }

  /* ---------------------------------------------------------------------- */
  /* The request                                                             */
  /* ---------------------------------------------------------------------- */

  /** A property of the parsed JSON body. */
  datatype JsonField =
    | Absent                    // missing (undefined)
    | Str(text: string)         // a string
    | NonString(truthy: bool)   // null, a boolean, a number, an array or an object

  predicate FieldTruthy(f: JsonField) {
    match f
    case Absent => false
    case Str(t) => t != ""
    case NonString(b) => b
  }

  /** The two properties `POST` destructures from the body. */
  datatype Body = Body(email: JsonField, hp: JsonField)

  /** The environment variables the handler reads; an empty value counts as unset. */
  datatype Env = Env(
    resendApiKey: Option<string>,          // RESEND_API_KEY
    forwardTo: Option<string>,             // SUBSCRIBE_FORWARD_TO
    audienceId: Option<string>,            // RESEND_AUDIENCE_ID
    audienceName: Option<string>,          // RESEND_AUDIENCE_NAME
    addToAudience: Option<string>)         // SUBSCRIBE_ADD_TO_RESEND_AUDIENCE

  /** An audience as the provider lists it. */
  datatype Audience = Audience(id: Option<string>, name: string)

  /** The provider's answers: its audience list, and the id of an audience it creates. */
  datatype Provider = Provider(audiences: seq<Audience>, createdId: Option<string>)

  /** What `addToResendAudience` asks the provider to do. */
  datatype AudienceCalls = AudienceCalls(
    listed: bool,                  // audiences.list()
    created: bool,                 // audiences.create({ name })
    contactIn: Option<string>)     // contacts.create({ audienceId, email }), when made

  datatype Response =
    | Ok                           // 200 { ok: true }
    | BadRequest(error: string)    // 400 { error }
    | ServerError(error: string)   // 500 { error }

  /** The side effects beyond the lead file. */
  datatype Effects = Effects(forwarded: bool, audience: Option<AudienceCalls>)

  const NoEffects := Effects(false, None)

  const DefaultAudienceName := "Cr\U{E9}aScope \U{2014} B\U{EA}ta"

  /** The email passes `POST`'s check: a non-empty string matching the pattern. */
  ghost predicate ValidEmail(f: JsonField) {
    f.Str? && f.text != "" && MatchesEmailPattern(f.text)
  }

  /** `forwardViaResend` sends only when an API key and a recipient are configured. */
  predicate ForwardConfigured(env: Env) {
    Truthy(env.resendApiKey) && Truthy(env.forwardTo)
  }

  /** The audience step runs only when enabled by "1" and an audience id or name is configured. */
  predicate AudienceEnabled(env: Env) {
    env.addToAudience == Some("1") && (Truthy(env.audienceId) || Truthy(env.audienceName))
  }

  function AudienceName(env: Env): string {
    if Truthy(env.audienceName) then env.audienceName.value else DefaultAudienceName
  }

  /** `list.find((a) => a.name === name)`: the first audience with that exact name. */
  function FindAudience(audiences: seq<Audience>, name: string): (r: Option<nat>)
    ensures r.Some? ==> r.value < |audiences| && audiences[r.value].name == name
    ensures r.Some? ==> forall j :: 0 <= j < r.value ==> audiences[j].name != name
    ensures r.None? ==> forall j :: 0 <= j < |audiences| ==> audiences[j].name != name
  {
    if audiences == [] then None
    else if audiences[0].name == name then Some(0)
    else
      match FindAudience(audiences[1..], name)
      case None => None
      case Some(k) => Some(k + 1)
  }

  /**
   * `addToResendAudience`: with an API key, use the configured audience id;
   * else list the audiences and take the first one with the configured (or
   * default) name if it has an id; else create an audience with that name.
   * The contact is created when an id results.
   */
  function AddToAudience(env: Env, p: Provider): (r: AudienceCalls)
    ensures !Truthy(env.resendApiKey) ==> !r.listed && !r.created && r.contactIn.None?
    ensures r.created ==> r.listed
    ensures r.contactIn.Some? ==> r.contactIn.value != ""
  {
    if !Truthy(env.resendApiKey) then AudienceCalls(false, false, None)
    else if Truthy(env.audienceId) then AudienceCalls(false, false, env.audienceId)
    else
      match FindAudience(p.audiences, AudienceName(env))
      case Some(k) =>
        if Truthy(p.audiences[k].id) then AudienceCalls(true, false, p.audiences[k].id)
        else AudienceCalls(true, true, if Truthy(p.createdId) then p.createdId else None)
      case None => AudienceCalls(true, true, if Truthy(p.createdId) then p.createdId else None)
  }

  /**
   * Where the contact goes: nowhere without an API key; into the configured
   * audience when one is set (without listing or creating); otherwise into the
   * first listed audience bearing the name, when that one has an id, and else
   * into a newly created audience, if the provider returned its id. At most
   * one audience is ever created.
   */
  lemma AudienceChoice(env: Env, p: Provider)
    ensures var r := AddToAudience(env, p);
      && (!Truthy(env.resendApiKey) ==> r == AudienceCalls(false, false, None))
      && (Truthy(env.resendApiKey) && Truthy(env.audienceId) ==> r == AudienceCalls(false, false, env.audienceId))
      && (Truthy(env.resendApiKey) && !Truthy(env.audienceId) ==> r.listed)
      && (r.contactIn.Some? ==> r.contactIn.value != "")
      && (r.listed && !r.created && r.contactIn.Some? ==>
            exists k :: 0 <= k < |p.audiences| && p.audiences[k].name == AudienceName(env)
                        && p.audiences[k].id == r.contactIn
                        && forall j :: 0 <= j < k ==> p.audiences[j].name != AudienceName(env))
      && (r.created ==> r.listed && r.contactIn == (if Truthy(p.createdId) then p.createdId else None))
    ensures var r := AddToAudience(env, p);
      Truthy(env.resendApiKey) && !Truthy(env.audienceId) ==>
        (!r.created <==> FirstNamedHasId(p.audiences, AudienceName(env)))
        && (!r.created ==> r.contactIn.Some?)
  {
    var name := AudienceName(env);
    match FindAudience(p.audiences, name)
    case Some(k) =>
      if FirstNamedHasId(p.audiences, name) {
        var k' :| 0 <= k' < |p.audiences| && p.audiences[k'].name == name && Truthy(p.audiences[k'].id)
                  && forall j :: 0 <= j < k' ==> p.audiences[j].name != name;
        assert k' == k;
      }
    case None =>
  }

  /** Some audience bears `name`, and the first one that does has a usable id. */
  predicate FirstNamedHasId(audiences: seq<Audience>, name: string) {
    exists k :: 0 <= k < |audiences| && audiences[k].name == name && Truthy(audiences[k].id)
                && forall j :: 0 <= j < k ==> audiences[j].name != name
  }

  /**
   * `POST /api/subscribe`. `body` is None when the body is not JSON (or is
   * null); `uaHeader` is the user-agent header and `now` the capture time.
   * Returns the response, the lead file afterwards and the other effects.
   */
  method Post(body: Option<Body>, uaHeader: Option<string>, now: string, env: Env,
              provider: Provider, file: StoreFile)
    returns (resp: Response, file': StoreFile, effects: Effects)
    ensures body.None? ==> resp == ServerError("Erreur serveur") && file' == file && effects == NoEffects
    ensures body.Some? && FieldTruthy(body.value.hp) ==>
      resp == Ok && file' == file && effects == NoEffects
    ensures body.Some? && !FieldTruthy(body.value.hp) && !ValidEmail(body.value.email) ==>
      resp == BadRequest("Email invalide") && file' == file && effects == NoEffects
    ensures body.Some? && !FieldTruthy(body.value.hp) && ValidEmail(body.value.email) ==>
      var email := body.value.email.text;
      var ua := if Truthy(uaHeader) then uaHeader else None;
      && resp == Ok
      && ReadLeads(file') == Appended(ReadLeads(file), email, Some(now), ua)
      && (HasEmail(ReadLeads(file), email) ==> file' == file)
      && effects.forwarded == ForwardConfigured(env)
      && effects.audience == (if AudienceEnabled(env) then Some(AddToAudience(env, provider)) else None)
    ensures resp.Ok? <==> body.Some? && (FieldTruthy(body.value.hp) || ValidEmail(body.value.email))
  {
    if body.None? {
      return ServerError("Erreur serveur"), file, NoEffects;
    }
    var b := body.value;
    if FieldTruthy(b.hp) {
      return Ok, file, NoEffects;
    }
    var valid := false;
    if b.email.Str? && b.email.text != "" {
      valid := CheckEmail(b.email.text);
    }
    if !valid {
      return BadRequest("Email invalide"), file, NoEffects;
    }
    var email := b.email.text;
    var ua := if Truthy(uaHeader) then uaHeader else None;
    var wrote;
    file', wrote := AppendLead(file, email, Some(now), ua);
    var forwarded := ForwardConfigured(env);
    var audience := if AudienceEnabled(env) then Some(AddToAudience(env, provider)) else None;
    return Ok, file', Effects(forwarded, audience);
  }
}
