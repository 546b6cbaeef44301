/** The user record of the application crate: creation with a normalised
    email, profile update, and the blacklist of throw-away email domains. */
module Users {
  import opened Base
  import opened Text

  datatype UpdateUserRequest = UpdateUserRequest(name: Option<string>)

  /** The email as stored: every ASCII capital replaced by its small letter. */
  predicate IsNormalizedEmail(email: string) {
    forall i :: 0 <= i < |email| ==> !('A' <= email[i] <= 'Z')
  }

  /** The fields of a user, as a value. */
  datatype UserRecord = UserRecord(
    id: string, name: string, email: string, isActive: bool, emailVerified: bool,
    createdAt: int, updatedAt: int)

  class User {
    const id: string
    var name: string
    const email: string
    const isActive: bool
    const emailVerified: bool
    const createdAt: int
    var updatedAt: int

    function Snapshot(): UserRecord
      reads this
    {
      UserRecord(id, name, email, isActive, emailVerified, createdAt, updatedAt)
    }

    /** `User::new`; `id` and `now` stand for the fresh UUID and the clock. */
    constructor (name: string, email: string, id: string, now: int)
      ensures this.id == id && this.name == name && this.email == ToLower(email)
      ensures isActive && !emailVerified && createdAt == now && updatedAt == now
    {
      this.id := id;
      this.name := name;
      this.email := ToLower(email);
      isActive := true;
      emailVerified := false;
      createdAt := now;
      updatedAt := now;
    }

    /** `update`: the name is replaced only when one is given; the email and
        the flags are never touched. */
    method Update(request: UpdateUserRequest, now: int)
      modifies this
      ensures name == request.name.GetOr(old(name)) && updatedAt == now
    {
      if request.name.Some? {
        name := request.name.value;
      }
      updatedAt := now;
    }
  }

  /** A lowercased email has no capitals left, and lowercasing it again
      changes nothing. */
  lemma ToLowerNormalizes(email: string)
    ensures IsNormalizedEmail(ToLower(email))
    ensures ToLower(ToLower(email)) == ToLower(email)
  {
    var once := ToLower(email);
    forall i | 0 <= i < |once| ensures LowerChar(once[i]) == once[i] {
      assert once[i] == LowerChar(email[i]);
    }
  }

  /** The crate's normalisation test. */
  lemma NormalizationExample()
    ensures ToLower("JANE@EXAMPLE.COM") == "jane@example.com"
  {
  }

  /** `email.split('@').nth(1)`: the text between the first `@` and the next. */
  function EmailDomain(email: string): (d: Option<string>)
    ensures d.Some? <==> '@' in email
    ensures d.Some? ==> '@' !in d.value
  {
    var parts := Split(email, '@');
    SplitSeveral(email, '@');
    SplitPartsHaveNoSeparator(email, '@');
    if |parts| > 1 then Some(parts[1]) else None
  }

  /** The domain is the segment after the first `@`, whatever follows the
      next `@`; with no second `@` it runs to the end. */
  lemma EmailDomainOfAddress(local: string, domain: string, rest: Option<string>)
    requires '@' !in local && '@' !in domain
    ensures EmailDomain(local + "@" + domain + (if rest.Some? then "@" + rest.value else "")) == Some(domain)
  {
    SplitNoSeparator(local, '@');
    SplitNoSeparator(domain, '@');
    if rest.Some? {
      SplitAtSeparator(domain, rest.value, '@');
      SplitAtSeparator(local, domain + "@" + rest.value, '@');
      assert local + "@" + domain + ("@" + rest.value) == local + ['@'] + (domain + ['@'] + rest.value);
    } else {
      SplitAtSeparator(local, domain, '@');
      assert local + "@" + domain + "" == local + ['@'] + domain;
    }
  }

  const FORBIDDEN_DOMAINS: seq<string> := ["tempmail.com", "10minutemail.com"]

  /** `validate_email_domain`: refuses an address whose second `@`-separated
      segment is a blacklisted domain; an address without `@` is accepted. */
  function ValidateEmailDomain(email: string): (r: Result<(), string>)
    ensures '@' !in email ==> r.Ok?
    ensures r.Err? <==> EmailDomain(email) == Some("tempmail.com") || EmailDomain(email) == Some("10minutemail.com")
    ensures r.Err? ==> r.error == "forbidden_email_domain"
  {
    var domain := EmailDomain(email);
    if domain.Some? && domain.value in FORBIDDEN_DOMAINS then Err("forbidden_email_domain") else Ok(())
  }

  /** For a plain `local@domain` address the check refuses exactly the two
      blacklisted domains. */
  lemma ForbiddenDomainRejected(local: string, domain: string)
    requires '@' !in local && '@' !in domain
    ensures ValidateEmailDomain(local + "@" + domain).Err? <==> domain == "tempmail.com" || domain == "10minutemail.com"
  {
    EmailDomainOfAddress(local, domain, None);
    assert local + "@" + domain + "" == local + "@" + domain;
  }

  /** Only the segment right after the first `@` is compared: a blacklisted
      domain behind a second `@` is accepted. */
  lemma OnlySecondSegmentCounts()
    ensures ValidateEmailDomain("a@b@tempmail.com").Ok?
  {
    EmailDomainOfAddress("a", "b", Some("tempmail.com"));
    assert "a" + "@" + "b" + ("@" + "tempmail.com") == "a@b@tempmail.com";
  }

  /** A blacklisted domain right after the first `@` is refused whatever
      follows it. */
  lemma SecondSegmentRefused()
    ensures ValidateEmailDomain("a@tempmail.com@b").Err?
  {
    EmailDomainOfAddress("a", "tempmail.com", Some("b"));
    assert "a" + "@" + "tempmail.com" + ("@" + "b") == "a@tempmail.com@b";
  }
}
