/** Ordered, first-match request authorization as configured through
    `authorizeHttpRequests`: each entry pairs an optional HTTP method and
    one or more path patterns with a rule, and the first entry whose
    matcher accepts the request decides. */
module RoutePolicy {

  import opened Wrappers
  import opened Roles

  datatype Method = GET | HEAD | POST | PUT | PATCH | DELETE | OPTIONS | TRACE

  /** The caller as established by the token filter: no token, or a token for a role. */
  datatype Principal = Anonymous | LoggedIn(role: Role)

  /** A request path is the list of its segments: "/api/v1/ongs" is ["api", "v1", "ongs"]. */
  datatype Request = Request(verb: Method, path: seq<string>)

  /** A literal segment, or a `{name}` variable that captures one non-empty segment. */
  datatype Segment = Lit(text: string) | Var(name: string)

  /** `segments` followed, when `rest` holds, by a trailing double-star segment that
      matches zero or more further segments. */
  datatype Pattern = Pattern(segments: seq<Segment>, rest: bool)

  /** A pattern with no trailing double star, and one with it. */
  function Exact(s: seq<Segment>): Pattern { Pattern(s, false) }
  function Under(s: seq<Segment>): Pattern { Pattern(s, true) }

  /** The path starts with the segments of `prefix`. */
  predicate Below(path: seq<string>, prefix: seq<string>) {
    |prefix| <= |path| && path[..|prefix|] == prefix
  }

  /** The literal segments spelling out `words`. */
  function Lits(words: seq<string>): (s: seq<Segment>)
    ensures |s| == |words|
    ensures forall i :: 0 <= i < |s| ==> s[i] == Lit(words[i])
  {
    seq(|words|, i requires 0 <= i < |words| => Lit(words[i]))
  }

  /** A pattern of literal segments matches exactly its own words, or with a
      trailing double star, exactly the paths that start with them. */
  lemma LitsMatch(words: seq<string>, rest: bool, path: seq<string>)
    ensures PatternMatches(Pattern(Lits(words), rest), path) <==>
      if rest then Below(path, words) else path == words
  {
    var ls := Lits(words);
    if PatternMatches(Pattern(ls, rest), path) {
      assert path[..|words|] == words by {
        forall i | 0 <= i < |words| ensures path[i] == words[i] {
          assert SegmentMatches(ls[i], path[i]);
        }
      }
    }
  }

  datatype Rule = PermitAll | HasAnyRole(roles: set<Role>) | Authenticated | DenyAll

  datatype Entry = Entry(verb: Option<Method>, patterns: seq<Pattern>, rule: Rule)

  /** What the filter chain does with a request: let it through, send it to the
      authentication entry point, or to the access-denied handler (403). The JWT
      chain's entry point answers 401; a chain that registers none gets Spring
      Security's default entry point, which answers 403. */
  datatype Decision = Permit | Unauthenticated | AccessDenied

  predicate SegmentMatches(s: Segment, x: string) {
    match s
    case Lit(t) => x == t
    case Var(_) => x != ""
  }

  predicate PatternMatches(p: Pattern, path: seq<string>) {
    && (if p.rest then |p.segments| <= |path| else |p.segments| == |path|)
    && forall i :: 0 <= i < |p.segments| ==> SegmentMatches(p.segments[i], path[i])
  }

  predicate EntryMatches(e: Entry, r: Request) {
    && (e.verb.None? || e.verb.value == r.verb)
    && exists p :: p in e.patterns && PatternMatches(p, r.path)
  }

  predicate MatchesNone(entries: seq<Entry>, r: Request) {
    forall i :: 0 <= i < |entries| ==> !EntryMatches(entries[i], r)
  }

  /** The rule of the first entry that matches, or None when no entry does. */
  function Decide(entries: seq<Entry>, r: Request): (d: Option<Rule>)
    ensures d.None? <==> MatchesNone(entries, r)
    ensures d.Some? ==> exists i :: FirstMatchAt(entries, r, i) && d.value == entries[i].rule
  {
    if |entries| == 0 then None
    else if EntryMatches(entries[0], r) then
      assert FirstMatchAt(entries, r, 0);
      Some(entries[0].rule)
    else
      var d := Decide(entries[1..], r);
      if d.Some? then
        var i :| FirstMatchAt(entries[1..], r, i) && d.value == entries[1..][i].rule;
        assert FirstMatchAt(entries, r, i + 1);
        d
      else
        d
  }

  predicate FirstMatchAt(entries: seq<Entry>, r: Request, i: int) {
    && 0 <= i < |entries|
    && EntryMatches(entries[i], r)
    && forall j :: 0 <= j < i ==> !EntryMatches(entries[j], r)
  }

  /** Whether a rule lets the principal through (hasRole / hasAnyRole compare the caller's one role). */
  predicate Grants(rule: Rule, p: Principal) {
    match rule
    case PermitAll => true
    case HasAnyRole(roles) => p.LoggedIn? && p.role in roles
    case Authenticated => p.LoggedIn?
    case DenyAll => false
  }

  /** Granted by the first matching entry; a request no entry matches is
      refused (the framework's default when no matcher applies). */
  predicate Granted(entries: seq<Entry>, r: Request, p: Principal) {
    match Decide(entries, r)
    case None => false
    case Some(rule) => Grants(rule, p)
  }

  /** The exception-handling split: a refused anonymous caller is sent to the
      entry point, a refused authenticated caller to the access-denied handler. */
  function Authorize(entries: seq<Entry>, r: Request, p: Principal): (d: Decision)
    ensures d == Permit <==> Granted(entries, r, p)
    ensures d == Unauthenticated <==> !Granted(entries, r, p) && p.Anonymous?
    ensures d == AccessDenied <==> !Granted(entries, r, p) && p.LoggedIn?
  {
    if Granted(entries, r, p) then Permit
    else if p.Anonymous? then Unauthenticated
    else AccessDenied
  }

  /** The outcome of a hasAnyRole rule: a caller holding one of the roles passes, a
      caller without a token goes to the entry point, any other caller is denied. */
  function Gate(roles: set<Role>, p: Principal): Decision {
    if p.LoggedIn? && p.role in roles then Permit
    else if p.Anonymous? then Unauthenticated
    else AccessDenied
  }

  /** When a hasAnyRole entry decides, the outcome is that rule's gate. */
  lemma RoleGate(entries: seq<Entry>, r: Request, p: Principal, roles: set<Role>)
    requires Decide(entries, r) == Some(HasAnyRole(roles))
    ensures Authorize(entries, r, p) == Gate(roles, p)
  {
  }

  /** Entries are tried in declaration order: the first matching entry decides,
      whatever follows it. */
  lemma {:induction false} FirstMatchWins(entries: seq<Entry>, r: Request, i: int)
    requires FirstMatchAt(entries, r, i)
    ensures Decide(entries, r) == Some(entries[i].rule)
  {
    if i > 0 {
      assert !EntryMatches(entries[0], r);
      assert FirstMatchAt(entries[1..], r, i - 1);
      FirstMatchWins(entries[1..], r, i - 1);
    }
  }

  /** A table built from two blocks: the second block is consulted only when
      nothing in the first matches. */
  lemma {:induction false} DecideAppend(a: seq<Entry>, b: seq<Entry>, r: Request)
    ensures Decide(a + b, r) == if MatchesNone(a, r) then Decide(b, r) else Decide(a, r)
  {
    if |a| == 0 {
      assert a + b == b;
    } else {
      assert (a + b)[0] == a[0];
      if !EntryMatches(a[0], r) {
        assert (a + b)[1..] == a[1..] + b;
        DecideAppend(a[1..], b, r);
        MatchesNoneTail(a, r);
      }
    }
  }

  lemma MatchesNoneTail(a: seq<Entry>, r: Request)
    requires |a| > 0 && !EntryMatches(a[0], r)
    ensures MatchesNone(a, r) <==> MatchesNone(a[1..], r)
  {
    if MatchesNone(a[1..], r) {
      forall i | 0 <= i < |a| ensures !EntryMatches(a[i], r) {
        if i > 0 { assert a[i] == a[1..][i - 1]; }
      }
    }
  }

  /** Every rule of a block refuses `p`, so if the block decides, `p` is refused. */
  lemma BlockRefuses(a: seq<Entry>, b: seq<Entry>, r: Request, p: Principal)
    requires !MatchesNone(a, r)
    requires forall i :: 0 <= i < |a| ==> !Grants(a[i].rule, p)
    ensures !Granted(a + b, r, p)
  {
    DecideAppend(a, b, r);
  }

  /** Whichever entry of a block decides, `p` is let through. */
  lemma BlockGrants(a: seq<Entry>, b: seq<Entry>, r: Request, p: Principal)
    requires !MatchesNone(a, r)
    requires forall i :: 0 <= i < |a| ==> Grants(a[i].rule, p)
    ensures Granted(a + b, r, p)
  {
    DecideAppend(a, b, r);
  }
}
