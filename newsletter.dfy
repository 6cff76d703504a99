/**
 * Newsletter subscriptions (routes/NewsLetter.router.js and
 * models/NewsLetter.model.js). The schema stores an email lowercased and
 * trimmed, checks it against `local@label(.label)*.tld` and keeps it
 * unique; the route refuses an email whose lowercase form is already
 * stored. Neither route asks who is calling.
 */
module Newsletter {
  import opened Wrappers
  import opened Schema
  import opened Store
  import opened Text

  // ---- The format validator

  /** A character of the part before `@`: `[\w-.]`. */
  predicate LocalChar(c: char) { IsWord(c) || c == '-' || c == '.' }

  /** A character of a domain label: `[\w-]`. */
  predicate LabelChar(c: char) { IsWord(c) || c == '-' }

  predicate IsLabel(s: string) {
    |s| > 0 && forall i :: 0 <= i < |s| ==> LabelChar(s[i])
  }

  /** The labels of a domain are all non-empty and the last has 2 to 4 characters. */
  predicate DomainFormat(domain: string) {
    var labels := Split(domain, '.');
    |labels| >= 2 && (forall j :: 0 <= j < |labels| ==> IsLabel(labels[j])) && 2 <= |labels[|labels| - 1]| <= 4
  }

  /**
   * The schema's validator: a non-empty local part of `[\w-.]` characters,
   * an `@`, and at least two dot-separated labels of `[\w-]` characters,
   * the last of 2 to 4.
   */
  predicate EmailFormat(s: string) {
    var local := TakeUntil(s, '@');
    0 < |local| < |s| && (forall i :: 0 <= i < |local| ==> LocalChar(local[i]))
    && DomainFormat(s[|local| + 1..])
  }

  /** The text before the first occurrence of a character that the prefix lacks is that prefix. */
  lemma TakeUntilPrefix(p: string, c: char, t: string)
    requires c !in p
    ensures TakeUntil(p + [c] + t, c) == p
  {
    SplitHead(p + [c] + t, c);
    SplitAfter(p, c, t);
  }

  /** A local part of `[\w-.]` characters before an accepted domain makes an accepted email. */
  lemma EmailFromParts(local: string, domain: string)
    requires |local| > 0 && forall i :: 0 <= i < |local| ==> LocalChar(local[i])
    requires DomainFormat(domain)
    ensures EmailFormat(local + "@" + domain)
  {
    var s := local + "@" + domain;
    assert '@' !in local by {
      forall i | 0 <= i < |local| ensures local[i] != '@' { assert LocalChar(local[i]); }
    }
    assert s == local + ['@'] + domain;
    TakeUntilPrefix(local, '@', domain);
    assert s[|local| + 1..] == domain;
  }

  /** `label.tld` is an accepted domain for a top-level label of 2 to 4 characters. */
  lemma DomainWithTld(name: string, tld: string)
    requires IsLabel(name) && IsLabel(tld) && 2 <= |tld| <= 4
    ensures DomainFormat(name + "." + tld)
  {
    assert '.' !in name by {
      forall i | 0 <= i < |name| ensures name[i] != '.' { assert LabelChar(name[i]); }
    }
    assert '.' !in tld by {
      forall i | 0 <= i < |tld| ensures tld[i] != '.' { assert LabelChar(tld[i]); }
    }
    assert name + "." + tld == name + ['.'] + tld;
    SplitAfter(name, '.', tld);
    SplitNone(tld, '.');
  }

  /** One more label in front of an accepted domain keeps it accepted. */
  lemma DomainAddLabel(name: string, domain: string)
    requires IsLabel(name) && DomainFormat(domain)
    ensures DomainFormat(name + "." + domain)
  {
    assert '.' !in name by {
      forall i | 0 <= i < |name| ensures name[i] != '.' { assert LabelChar(name[i]); }
    }
    assert name + "." + domain == name + ['.'] + domain;
    SplitAfter(name, '.', domain);
    var labels := Split(domain, '.');
    var more := Split(name + ['.'] + domain, '.');
    assert more == [name] + labels;
    assert forall j :: 1 <= j < |more| ==> more[j] == labels[j - 1];
  }

  /** Text without an `@` is never accepted. */
  lemma NoAtRejected(s: string)
    requires '@' !in s
    ensures !EmailFormat(s)
  {
  }

  // ---- The validator as a one-pass scan

  /** Where a left-to-right scan of an email stands. */
  datatype Phase =
    | InLocal(seen: bool)              // in the local part; `seen`: it is not empty
    | InDomain(len: nat, dotted: bool) // in a label of `len` characters; `dotted`: an earlier label ended

  /** Whether the rest `s` of an email, scanned from `p`, completes an accepted one. */
  function Scan(s: string, p: Phase): bool {
    if s == [] then p.InDomain? && p.dotted && 2 <= p.len <= 4
    else match p
      case InLocal(seen) =>
        if s[0] == '@' then seen && Scan(s[1..], InDomain(0, false))
        else LocalChar(s[0]) && Scan(s[1..], InLocal(true))
      case InDomain(len, dotted) =>
        if s[0] == '.' then len > 0 && Scan(s[1..], InDomain(0, true))
        else LabelChar(s[0]) && Scan(s[1..], InDomain(len + 1, dotted))
  }

  /** The scan as the validator runs it. */
  function ScanEmail(s: string): bool { Scan(s, InLocal(false)) }

  predicate LabelChars(s: string) { forall i :: 0 <= i < |s| ==> LabelChar(s[i]) }

  /**
   * The labels `ls` of the rest of a domain, read after a current label
   * of `len` characters: the first piece continues that label.
   */
  predicate DomainRest(ls: seq<string>, len: nat, dotted: bool)
    requires |ls| >= 1
  {
    LabelChars(ls[0]) && (forall j :: 1 <= j < |ls| ==> IsLabel(ls[j]))
    && (|ls| > 1 ==> len + |ls[0]| > 0)
    && (dotted || |ls| > 1)
    && 2 <= (if |ls| == 1 then len + |ls[0]| else |ls[|ls| - 1]|) <= 4
  }

  lemma {:induction false} ScanDomain(d: string, len: nat, dotted: bool)
    ensures Scan(d, InDomain(len, dotted)) == DomainRest(Split(d, '.'), len, dotted)
    decreases |d|
  {
    if d != [] {
      var rs := Split(d[1..], '.');
      var ls := Split(d, '.');
      if d[0] == '.' {
        ScanDomain(d[1..], 0, true);
        assert ls == [[]] + rs;
        DotStep(rs, len, dotted);
      } else {
        ScanDomain(d[1..], len + 1, dotted);
        assert ls == [[d[0]] + rs[0]] + rs[1..];
        LabelStep(d[0], rs, len, dotted);
      }
    }
  }

  /** A dot ends the current label: the rest must read as fresh labels after it. */
  lemma DotStep(rs: seq<string>, len: nat, dotted: bool)
    requires |rs| >= 1
    ensures DomainRest([[]] + rs, len, dotted) == (len > 0 && DomainRest(rs, 0, true))
  {
    var ls := [[]] + rs;
    assert forall j :: 1 <= j < |ls| ==> ls[j] == rs[j - 1];
    assert ls[|ls| - 1] == rs[|rs| - 1];
    if DomainRest(ls, len, dotted) {
      assert IsLabel(ls[1]) && ls[1] == rs[0];
      forall j | 1 <= j < |rs| ensures IsLabel(rs[j]) {
        assert rs[j] == ls[j + 1];
      }
    }
    if len > 0 && DomainRest(rs, 0, true) {
      assert IsLabel(rs[0]);
      forall j | 1 <= j < |ls| ensures IsLabel(ls[j]) {
        assert ls[j] == rs[j - 1];
      }
      assert LabelChars(ls[0]);
    }
  }

  lemma LabelCharsCons(c: char, t: string)
    ensures LabelChars([c] + t) <==> LabelChar(c) && LabelChars(t)
  {
    var u := [c] + t;
    if LabelChars(u) {
      assert LabelChar(u[0]);
      forall i | 0 <= i < |t| ensures LabelChar(t[i]) {
        assert t[i] == u[i + 1];
      }
    }
    if LabelChar(c) && LabelChars(t) {
      forall i | 0 <= i < |u| ensures LabelChar(u[i]) {
        if i > 0 { assert u[i] == t[i - 1]; }
      }
    }
  }

  /** A label character extends the current label. */
  lemma LabelStep(c: char, rs: seq<string>, len: nat, dotted: bool)
    requires |rs| >= 1
    ensures DomainRest([[c] + rs[0]] + rs[1..], len, dotted) == (LabelChar(c) && DomainRest(rs, len + 1, dotted))
  {
    var ls := [[c] + rs[0]] + rs[1..];
    assert forall j :: 1 <= j < |ls| ==> ls[j] == rs[j];
    LabelCharsCons(c, rs[0]);
  }

  predicate LocalChars(s: string) { forall i :: 0 <= i < |s| ==> LocalChar(s[i]) }

  lemma {:induction false} ScanLocal(s: string, seen: bool)
    ensures Scan(s, InLocal(seen)) ==
      var local := TakeUntil(s, '@');
      |local| < |s| && (seen || |local| > 0) && LocalChars(local) && Scan(s[|local| + 1..], InDomain(0, false))
  {
    if s != [] && s[0] != '@' {
      ScanLocal(s[1..], true);
      var rest := TakeUntil(s[1..], '@');
      assert TakeUntil(s, '@') == [s[0]] + rest;
      if |rest| + 1 < |s| {
        assert s[|rest| + 2..] == s[1..][|rest| + 1..];
      }
      assert LocalChars([s[0]] + rest) <==> LocalChar(s[0]) && LocalChars(rest) by {
        assert forall i :: 1 <= i < |rest| + 1 ==> ([s[0]] + rest)[i] == rest[i - 1];
      }
    }
  }

  /** The one-pass scan accepts exactly the emails of the format. */
  lemma ScanAgreesWithFormat(s: string)
    ensures ScanEmail(s) == EmailFormat(s)
  {
    ScanLocal(s, false);
    var local := TakeUntil(s, '@');
    if |local| < |s| {
      ScanDomain(s[|local| + 1..], 0, false);
    }
  }

  // ---- The routes

  /** An email as the schema stores it: no upper-case letter and nothing to trim. */
  predicate IsNormal(e: string) {
    (forall i :: 0 <= i < |e| ==> !IsUpper(e[i])) && (e != [] ==> !IsSpace(e[0]) && !IsSpace(e[|e| - 1]))
  }

  /** The form the schema stores an email in: lowercased, then trimmed. */
  function Normalised(email: string): (e: string)
    ensures IsNormal(e)
  {
    var l := ToLower(email);
    TrimEnds(l);
    TrimWithin(l);
    Trim(l)
  }

  /** Normalising a stored email changes nothing, so normalising is idempotent. */
  lemma NormalFixed(e: string)
    requires IsNormal(e)
    ensures Normalised(e) == e
  {
    assert forall i :: 0 <= i < |e| ==> LowerChar(e[i]) == e[i];
    assert ToLower(e) == e;
    TrimUnpadded(e);
  }

  /** Whether some subscriber is stored under exactly this email. */
  predicate Subscribed(subscribers: map<Id, Subscriber>, email: string) {
    exists k :: k in subscribers && subscribers[k].email == email
  }

  /** Every stored email is in its normalised form. */
  predicate AllNormalised(subscribers: map<Id, Subscriber>) {
    forall k :: k in subscribers ==> IsNormal(subscribers[k].email)
  }

  /**
   * The save of a normalised email: a malformed one fails validation (the
   * scan, which `ScanAgreesWithFormat` shows to be the format) and a
   * stored one the unique index, both a 500.
   */
  method SaveSubscriber(db: Db, e: string, now: int) returns (r: Result<Id>)
    requires db.Valid() && IsNormal(e)
    modifies db
    ensures db.Valid()
    ensures if !ScanEmail(e) || Subscribed(old(db.data.subscribers), e) then
        r == Err(ServerError) && db.data == old(db.data)
      else (r.Ok? && r.value !in old(db.data.subscribers)
        && db.data == old(db.data).(subscribers := old(db.data.subscribers)[r.value := Subscriber(e, now)], nextId := r.value + 1))
    ensures AllNormalised(old(db.data.subscribers)) ==> AllNormalised(db.data.subscribers)
  {
    if !ScanEmail(e) {
      return Err(ServerError);
    }
    var taken := First(db.data.subscribers, (k: Id, s: Subscriber) => s.email == e, db.data.nextId);
    if taken.Some? {
      return Err(ServerError);
    }
    var id := db.NewId();
    db.data := db.data.(subscribers := db.data.subscribers[id := Subscriber(e, now)]);
    r := Ok(id);
  }

  /**
   * POST /: an empty email is a 400. The duplicate query's value goes through
   * the schema's setters like a saved one, so an address already stored in
   * its normalised form is a 409; otherwise the schema saves it normalised.
   */
  method Subscribe(db: Db, email: string, now: int) returns (r: Result<Id>)
    requires db.Valid()
    modifies db
    ensures db.Valid()
    ensures email == "" ==> r == Err(BadRequest) && db.data == old(db.data)
    ensures email != "" && Subscribed(old(db.data.subscribers), Normalised(email)) ==>
      r == Err(Conflict) && db.data == old(db.data)
    ensures email != "" && !Subscribed(old(db.data.subscribers), Normalised(email)) ==>
      if !ScanEmail(Normalised(email)) then r == Err(ServerError) && db.data == old(db.data)
      else (r.Ok? && r.value !in old(db.data.subscribers)
        && db.data == old(db.data).(subscribers := old(db.data.subscribers)[r.value := Subscriber(Normalised(email), now)], nextId := r.value + 1))
    ensures AllNormalised(old(db.data.subscribers)) ==> AllNormalised(db.data.subscribers)
  {
    if email == "" {
      return Err(BadRequest);
    }
    var e := Normalised(email);
    var existing := First(db.data.subscribers, (k: Id, s: Subscriber) => s.email == e, db.data.nextId);
    if existing.Some? {
      return Err(Conflict);
    }
    r := SaveSubscriber(db, e, now);
  }

  /** Once an address is stored, every variant of it in letter case or surrounding whitespace is a duplicate. */
  lemma SameNormalFormConflicts(subscribers: map<Id, Subscriber>, email: string)
    requires Subscribed(subscribers, ToLower(Trim(email)))
    ensures Subscribed(subscribers, Normalised(email))
  {
    TrimLowerCommute(email);
  }

  function SubscribedAt(s: Subscriber): int { s.subscribedAt }

  /** GET /: every subscriber, newest subscription first. */
  function Subscribers(subscribers: map<Id, Subscriber>, n: nat): (r: seq<Id>)
    requires Below(subscribers, n)
    ensures forall k :: k in r <==> k in subscribers
    ensures forall i, j :: 0 <= i < j < |r| ==> subscribers[r[i]].subscribedAt >= subscribers[r[j]].subscribedAt
  {
    NewestFirst(subscribers, Find(subscribers, (k: Id, s: Subscriber) => true, n), SubscribedAt)
  }
}
