/** Signed share tokens, at the level of strings: <secret id>.<expiry>.<policy version>.<signature>, and the older form
    without a policy version. */
module ShareToken {
  import opened Bytes

  /** What the server has signed. */
  datatype Grant = Modern(id: string, expiry: int, version: int) | Legacy(id: string, expiry: int) {
    function Version(): int {
      if Modern? then version else 1
    }
  }

  datatype Verdict = Accepted(id: string) | Malformed | Expired | BadSignature | Superseded

  // ---------- Strings ----------

  predicate DotFree(s: string) {
    '.' !in s
  }

  function Digit(d: nat): char
    requires d < 10
  {
    "0123456789"[d]
  }

  function DigitValue(c: char): Option<nat> {
    if '0' <= c <= '9' then Some((c as int) - ('0' as int)) else None
  }

  function Digits(n: nat): string {
    if n < 10 then [Digit(n)] else Digits(n / 10) + [Digit(n % 10)]
  }

  /** The decimal form that an f-string gives an integer. */
  function Render(n: int): string {
    if n < 0 then "-" + Digits(-n) else Digits(n)
  }

  predicate IsSpace(c: char) {
    c == ' ' || '\t' <= c <= '\r' || '\U{1c}' <= c <= '\U{1f}'
  }

  function TrimLeft(s: string): string {
    if s != "" && IsSpace(s[0]) then TrimLeft(s[1..]) else s
  }

  function TrimRight(s: string): string {
    if s != "" && IsSpace(s[|s| - 1]) then TrimRight(s[..|s| - 1]) else s
  }

  /** Digits with single underscores between them. */
  function ParseDigits(s: string): Option<nat> {
    if s == "" then None
    else
      var rest, last := s[..|s| - 1], DigitValue(s[|s| - 1]);
      if last.None? then None
      else if rest == "" then last
      else
        var front := if rest[|rest| - 1] == '_' then ParseDigits(rest[..|rest| - 1]) else ParseDigits(rest);
        if front.None? then None else Some(front.value * 10 + last.value)
  }

  /** int(s): surrounding blanks, a sign and underscores between digits are allowed. */
  function ParseInt(s: string): Option<int> {
    var t := TrimRight(TrimLeft(s));
    if t != "" && (t[0] == '-' || t[0] == '+') then WithSign(t[0] == '-', ParseDigits(t[1..]))
    else WithSign(false, ParseDigits(t))
  }

  function WithSign(negative: bool, n: Option<nat>): Option<int> {
    if n.None? then None else Some(if negative then -(n.value as int) else n.value as int)
  }

  /** The position of the last dot, or -1. */
  function LastDot(s: string): (i: int)
    ensures -1 <= i < |s|
  {
    if s == "" then -1 else if s[|s| - 1] == '.' then |s| - 1 else LastDot(s[..|s| - 1])
  }

  lemma OneMoreDotFree(s: string, c: char)
    requires DotFree(s) && c != '.'
    ensures DotFree(s + [c])
  {
  }

  lemma NothingIsDotFree()
    ensures DotFree("")
  {
  }

  lemma {:induction false} LastDotFinds(s: string)
    ensures LastDot(s) < 0 ==> DotFree(s)
    ensures LastDot(s) >= 0 ==> s[LastDot(s)] == '.' && DotFree(s[LastDot(s) + 1..])
  {
    hide DotFree;
    if s == "" {
      NothingIsDotFree();
    } else if s[|s| - 1] == '.' {
      assert s[|s|..] == "";
      NothingIsDotFree();
    } else {
      var front, c := s[..|s| - 1], s[|s| - 1];
      var i := LastDot(front);
      LastDotFinds(front);
      if i < 0 {
        OneMoreDotFree(front, c);
        assert s == front + [c];
      } else {
        OneMoreDotFree(front[i + 1..], c);
        assert s[i + 1..] == front[i + 1..] + [c];
      }
    }
  }

  /** s.rsplit(".", n). */
  function RSplit(s: string, n: nat): (parts: seq<string>)
    ensures 1 <= |parts| <= n + 1
  {
    var d := LastDot(s);
    if n == 0 || d < 0 then [s] else RSplit(s[..d], n - 1) + [s[d + 1..]]
  }

  // ---------- Tokens ----------

  function Payload(g: Grant): string {
    match g
    case Modern(id, expiry, version) => id + "." + Render(expiry) + "." + Render(version)
    case Legacy(id, expiry) => id + "." + Render(expiry)
  }

  function Token(mac: string -> string, g: Grant): string {
    Payload(g) + "." + mac(Payload(g))
  }

  /** The parts of a token: secret id, expiry as written, policy version, the payload that must be signed, and the
      signature. The version is rendered again, the expiry is not. */
  datatype Parts = Parts(id: string, expiry: string, version: int, payload: string, sig: string)

  function Split(token: string): Option<Parts> {
    var parts := RSplit(token, 3);
    if |parts| == 4 then
      match ParseInt(parts[2])
      case None => None
      case Some(version) =>
        Some(Parts(parts[0], parts[1], version, parts[0] + "." + parts[1] + "." + Render(version), parts[3]))
    else if |parts| == 3 then
      Some(Parts(parts[0], parts[1], 1, parts[0] + "." + parts[1], parts[2]))
    else None
  }

  function Verify(mac: string -> string, token: string, now: real, expected: Option<int>): Verdict {
    match Split(token)
    case None => Malformed
    case Some(p) =>
      match ParseInt(p.expiry)
      case None => Malformed
      case Some(expiry) =>
        if now > expiry as real then Expired
        else if p.sig != mac(p.payload) then BadSignature
        else if expected.Some? && p.version != expected.value then Superseded
        else Accepted(p.id)
  }

  // ---------- Rendering and parsing ----------

  lemma {:induction false} DigitsParse(n: nat)
    ensures ParseDigits(Digits(n)) == Some(n)
    ensures Digits(n) != "" && DigitValue(Digits(n)[0]).Some? && DigitValue(Digits(n)[|Digits(n)| - 1]).Some?
    ensures DotFree(Digits(n))
  {
    if n >= 10 {
      DigitsParse(n / 10);
      var front := Digits(n / 10);
      assert Digits(n)[..|Digits(n)| - 1] == front;
    }
  }

  lemma NothingToTrim(s: string)
    requires s != "" && !IsSpace(s[0]) && !IsSpace(s[|s| - 1])
    ensures TrimRight(TrimLeft(s)) == s
  {
  }

  lemma RenderParses(n: int)
    ensures ParseInt(Render(n)) == Some(n) && DotFree(Render(n))
  {
    DigitsParse(if n < 0 then -n else n);
    NothingToTrim(Render(n));
    if n < 0 {
      assert Render(n)[1..] == Digits(-n);
    }
  }

  ghost predicate Blank(s: string) {
    forall i :: 0 <= i < |s| ==> IsSpace(s[i])
  }

  lemma {:induction false} TrimsLeft(a: string, s: string)
    requires Blank(a) && s != "" && !IsSpace(s[0])
    ensures TrimLeft(a + s) == s
  {
    if a == "" {
      assert a + s == s;
    } else {
      assert (a + s)[1..] == a[1..] + s;
      TrimsLeft(a[1..], s);
    }
  }

  lemma {:induction false} TrimsRight(s: string, b: string)
    requires Blank(b) && s != "" && !IsSpace(s[|s| - 1])
    ensures TrimRight(s + b) == s
  {
    if b == "" {
      assert s + b == s;
    } else {
      assert (s + b)[..|s + b| - 1] == s + b[..|b| - 1];
      TrimsRight(s, b[..|b| - 1]);
    }
  }

  /** Blanks around a number do not matter. */
  lemma BlanksAreIgnored(a: string, n: int, b: string)
    requires Blank(a) && Blank(b)
    ensures ParseInt(a + Render(n) + b) == Some(n)
  {
    RenderParses(n);
    DigitsParse(if n < 0 then -n else n);
    var s := Render(n);
    assert !IsSpace(s[0]) && !IsSpace(s[|s| - 1]);
    assert a + s + b == a + (s + b);
    TrimsLeft(a, s + b);
    TrimsRight(s, b);
    NothingToTrim(s);
  }

  /** Nor does an underscore between two digits. */
  lemma {:induction false} UnderscoreIsIgnored(a: string, b: string)
    requires ParseDigits(a).Some? && b != "" && forall i :: 0 <= i < |b| ==> '0' <= b[i] <= '9'
    ensures ParseDigits(a + "_" + b) == ParseDigits(a + b) != None
    decreases |b|
  {
    var front := b[..|b| - 1];
    assert (a + "_" + b)[..|a + "_" + b| - 1] == a + "_" + front && (a + b)[..|a + b| - 1] == a + front;
    if front == "" {
      assert a + "_" + front == a + "_" && (a + "_")[..|a|] == a && a + front == a;
      LastIsDigit(a);
    } else {
      UnderscoreIsIgnored(a, front);
      assert (a + front)[|a + front| - 1] == front[|front| - 1];
      assert (a + "_" + front)[|a + "_" + front| - 1] == front[|front| - 1];
    }
  }

  lemma LastIsDigit(a: string)
    requires ParseDigits(a).Some?
    ensures a != "" && a[|a| - 1] != '_'
  {
  }

  // ---------- Splitting ----------

  lemma LastDotIs(a: string, b: string)
    requires DotFree(b)
    ensures LastDot(a + "." + b) == |a|
  {
    var s := a + "." + b;
    LastDotFinds(s);
    assert s[|a|] == '.' && s[|a| + 1..] == b;
  }

  lemma SplitsLast(a: string, b: string, n: nat)
    requires DotFree(b) && n > 0
    ensures RSplit(a + "." + b, n) == RSplit(a, n - 1) + [b]
  {
    LastDotIs(a, b);
    var s := a + "." + b;
    assert s[..|a|] == a && s[|a| + 1..] == b;
  }

  lemma SplitsNothing(a: string, n: nat)
    requires DotFree(a)
    ensures RSplit(a, n) == [a]
  {
    LastDotFinds(a);
  }

  lemma {:induction false} SplitIsExact(s: string, n: nat)
    ensures
      var parts := RSplit(s, n);
      (|parts| <= n ==> DotFree(parts[0])) && (forall i :: 1 <= i < |parts| ==> DotFree(parts[i]))
    decreases n
  {
    hide DotFree, LastDot;
    var d := LastDot(s);
    LastDotFinds(s);
    if n > 0 && d >= 0 {
      SplitIsExact(s[..d], n - 1);
    }
  }

  lemma SplitInFour(id: string, expiry: string, version: string, sig: string)
    requires DotFree(id) && DotFree(expiry) && DotFree(version) && DotFree(sig)
    ensures RSplit(id + "." + expiry + "." + version + "." + sig, 3) == [id, expiry, version, sig]
  {
    hide RSplit, DotFree;
    SplitsLast(id + "." + expiry + "." + version, sig, 3);
    SplitsLast(id + "." + expiry, version, 2);
    SplitsLast(id, expiry, 1);
    SplitsNothing(id, 0);
  }

  lemma SplitInThree(id: string, expiry: string, sig: string)
    requires DotFree(id) && DotFree(expiry) && DotFree(sig)
    ensures RSplit(id + "." + expiry + "." + sig, 3) == [id, expiry, sig]
  {
    hide RSplit, DotFree;
    SplitsLast(id + "." + expiry, sig, 3);
    SplitsLast(id, expiry, 2);
    SplitsNothing(id, 1);
  }

  lemma SplitToken(mac: string -> string, g: Grant)
    requires DotFree(g.id) && DotFree(mac(Payload(g)))
    ensures Split(Token(mac, g)) == Some(Parts(g.id, Render(g.expiry), g.Version(), Payload(g), mac(Payload(g))))
  {
    hide RSplit, DotFree, Render, ParseInt;
    RenderParses(g.expiry);
    var sig := mac(Payload(g));
    match g
    case Modern(id, expiry, version) =>
      RenderParses(version);
      SplitInFour(id, Render(expiry), Render(version), sig);
    case Legacy(id, expiry) =>
      SplitInThree(id, Render(expiry), sig);
  }

  /** Verification undoes creation for every dot-free id and every expiry and version: the token is accepted exactly
      until it expires, and only for its own policy version. */
  lemma VerifyUndoesCreate(mac: string -> string, g: Grant, now: real, expected: Option<int>)
    requires DotFree(g.id) && DotFree(mac(Payload(g)))
    ensures
      Verify(mac, Token(mac, g), now, expected)
      == if now > g.expiry as real then Expired
         else if expected.Some? && g.Version() != expected.value then Superseded
         else Accepted(g.id)
  {
    SplitToken(mac, g);
    RenderParses(g.expiry);
  }

  // ---------- What an accepted token proves ----------

  lemma PayloadParts(g: Grant)
    requires DotFree(g.id)
    ensures
      RSplit(Payload(g), 2)
      == match g
         case Modern(id, expiry, version) => [id, Render(expiry), Render(version)]
         case Legacy(id, expiry) => [id, Render(expiry)]
  {
    hide RSplit, DotFree, Render;
    RenderParses(g.expiry);
    match g
    case Modern(id, expiry, version) =>
      RenderParses(version);
      SplitsLast(id + "." + Render(expiry), Render(version), 2);
      SplitsLast(id, Render(expiry), 1);
      SplitsNothing(id, 0);
    case Legacy(id, expiry) =>
      SplitsLast(id, Render(expiry), 2);
      SplitsNothing(id, 1);
  }

  /** No two grants share a payload: neither within a form nor between the two forms. */
  lemma PayloadsNeverCollide(g: Grant, h: Grant)
    requires DotFree(g.id) && DotFree(h.id) && Payload(g) == Payload(h)
    ensures g == h
  {
    hide RSplit, Render, ParseInt;
    PayloadParts(g);
    PayloadParts(h);
    RenderParses(g.expiry);
    RenderParses(h.expiry);
    if g.Modern? {
      RenderParses(g.version);
    }
    if h.Modern? {
      RenderParses(h.version);
    }
  }

  ghost predicate Signed(minted: set<Grant>, payload: string) {
    exists g :: g in minted && Payload(g) == payload
  }

  /** An ideal MAC: whoever presents this signature got it from the server, which signs only what it grants. */
  ghost predicate Unforged(mac: string -> string, minted: set<Grant>, sig: string) {
    forall payload :: mac(payload) == sig ==> Signed(minted, payload)
  }

  ghost predicate IdsDotFree(minted: set<Grant>) {
    forall g :: g in minted ==> DotFree(g.id)
  }

  lemma SplitMatches(token: string, g: Grant)
    requires DotFree(g.id) && Split(token).Some? && Split(token).value.payload == Payload(g)
    ensures
      var p := Split(token).value;
      p.id == g.id && p.version == g.Version() && ParseInt(p.expiry) == Some(g.expiry)
  {
    hide RSplit, Render, ParseInt;
    var parts := RSplit(token, 3);
    SplitIsExact(token, 3);
    PayloadParts(g);
    RenderParses(g.expiry);
    if |parts| == 4 {
      var version := Split(token).value.version;
      RenderParses(version);
      SplitsLast(parts[0] + "." + parts[1], Render(version), 2);
      SplitsLast(parts[0], parts[1], 1);
      SplitOnce(parts[0]);
      assert RSplit(Payload(g), 2) == [parts[0], parts[1], Render(version)];
      if g.Modern? {
        RenderParses(g.version);
      }
    } else {
      SplitsLast(parts[0], parts[1], 2);
      SplitsNothing(parts[0], 1);
      assert RSplit(Payload(g), 2) == [parts[0], parts[1]];
    }
  }

  lemma SplitOnce(s: string)
    ensures RSplit(s, 0) == [s]
  {
  }

  /** With an ideal MAC, an accepted token was granted by the server, with this id, an expiry not yet passed, and the
      expected policy version. */
  lemma AcceptedWasGranted(mac: string -> string, minted: set<Grant>, token: string, now: real, expected: Option<int>)
    requires IdsDotFree(minted) && Verify(mac, token, now, expected).Accepted?
    requires Unforged(mac, minted, Split(token).value.sig)
    ensures exists g :: g in minted && g.id == Verify(mac, token, now, expected).id && now <= g.expiry as real
                        && (expected.Some? ==> g.Version() == expected.value)
  {
    hide RSplit, Render, ParseInt;
    var p := Split(token).value;
    assert Signed(minted, p.payload);
    var g :| g in minted && Payload(g) == p.payload;
    SplitMatches(token, g);
  }

  // ---------- Policies over time ----------

  /** The policy version of each secret, every id ever used, and everything signed so far. */
  datatype World = World(versions: map<string, int>, used: set<string>, minted: set<Grant>)

  datatype Step = Create(id: string, expiry: int) | UpdatePolicy(id: string, expiry: int) | Delete(id: string)

  function Next(w: World, step: Step): World {
    match step
    case Create(id, expiry) =>
      if id in w.used || !DotFree(id) then w
      else World(w.versions[id := 1], w.used + {id}, w.minted + {Modern(id, expiry, 1)})
    case UpdatePolicy(id, expiry) =>
      if id !in w.versions then w
      else
        var version := w.versions[id] + 1;
        w.(versions := w.versions[id := version], minted := w.minted + {Modern(id, expiry, version)})
    case Delete(id) => w.(versions := w.versions - {id})
  }

  function RunAll(w: World, steps: seq<Step>): World
    decreases |steps|
  {
    if steps == [] then w else RunAll(Next(w, steps[0]), steps[1..])
  }

  /** No grant is ahead of its secret's policy. */
  ghost predicate Good(w: World) {
    && IdsDotFree(w.minted)
    && (forall id :: id in w.used ==> DotFree(id))
    && (forall id :: id in w.versions ==> id in w.used)
    && (forall g :: g in w.minted ==> g.id in w.used && (g.id in w.versions ==> g.Version() <= w.versions[g.id]))
  }

  lemma {:induction false} GoodOverRuns(w: World, steps: seq<Step>)
    requires Good(w)
    ensures Good(RunAll(w, steps))
    decreases |steps|
  {
    if steps != [] {
      GoodOverRuns(Next(w, steps[0]), steps[1..]);
    }
  }

  /** While a secret exists its policy version only grows; once deleted it does not come back. */
  lemma {:induction false} VersionsGrow(w: World, steps: seq<Step>, id: string)
    requires id in w.used && (forall i :: i in w.versions ==> i in w.used)
    ensures
      var w' := RunAll(w, steps);
      id in w'.used && (id in w'.versions ==> id in w.versions && w.versions[id] <= w'.versions[id])
    decreases |steps|
  {
    if steps != [] {
      VersionsGrow(Next(w, steps[0]), steps[1..], id);
    }
  }

  datatype Decision = Granted(version: int) | NotFound | BadToken | WrongSecret | LocationRefused

  /** The share token is optional: without one only the location is checked. */
  function Authorize(mac: string -> string, w: World, id: string, token: Option<string>, now: real,
                     located: bool): Decision
  {
    if id !in w.versions then NotFound
    else
      var verdict :=
        if token.Some? && token.value != "" then Verify(mac, token.value, now, Some(w.versions[id])) else Accepted(id);
      if !verdict.Accepted? then BadToken
      else if verdict.id != id then WrongSecret
      else if !located then LocationRefused
      else Granted(w.versions[id])
  }

  lemma {:induction false} RunJoin(w: World, a: seq<Step>, b: seq<Step>)
    ensures RunAll(w, a + b) == RunAll(RunAll(w, a), b)
    decreases |a|
  {
    hide Next;
    if a == [] {
      assert a + b == b;
    } else {
      assert (a + b)[1..] == a[1..] + b;
      RunJoin(Next(w, a[0]), a[1..], b);
    }
  }

  /** The token is this grant, as its payload reads, under the server's signature. */
  ghost predicate Carries(mac: string -> string, token: string, g: Grant) {
    && Split(token).Some?
    && Split(token).value.payload == Payload(g)
    && Split(token).value.sig == mac(Payload(g))
  }

  lemma TokenCarries(mac: string -> string, g: Grant)
    requires DotFree(g.id) && DotFree(mac(Payload(g)))
    ensures Carries(mac, Token(mac, g), g)
  {
    hide Split, Payload;
    SplitToken(mac, g);
  }

  /** A token is shown that the server granted for this secret and policy version, and it has not expired. */
  ghost predicate Shows(mac: string -> string, minted: set<Grant>, token: Option<string>, id: string, version: int,
                        now: real)
  {
    && token.Some?
    && exists g :: g in minted && Carries(mac, token.value, g) && g.id == id && g.Version() == version
                   && now <= g.expiry as real
  }

  predicate NoToken(token: Option<string>) {
    token.None? || token.value == ""
  }

  /** An ideal MAC, as far as this token goes. */
  ghost predicate UnforgedToken(mac: string -> string, minted: set<Grant>, token: Option<string>) {
    token.Some? && Split(token.value).Some? ==> Unforged(mac, minted, Split(token.value).value.sig)
  }

  /** Verification accepts exactly the unexpired tokens that the server granted, for the version they were granted for,
      and names the id they were granted for. */
  lemma AcceptedExactly(mac: string -> string, minted: set<Grant>, token: string, id: string, version: int, now: real)
    requires IdsDotFree(minted) && UnforgedToken(mac, minted, Some(token))
    ensures Verify(mac, token, now, Some(version)) == Accepted(id) <==>
              Shows(mac, minted, Some(token), id, version, now)
  {
    hide Split, ParseInt, DotFree, Payload;
    if Verify(mac, token, now, Some(version)) == Accepted(id) {
      var p := Split(token).value;
      assert Signed(minted, p.payload);
      var g :| g in minted && Payload(g) == p.payload;
      SplitMatches(token, g);
      assert Carries(mac, token, g);
    }
    if Shows(mac, minted, Some(token), id, version, now) {
      var g :| g in minted && Carries(mac, token, g) && g.id == id && g.Version() == version && now <= g.expiry as real;
      SplitMatches(token, g);
    }
  }

  /** The decision for every token, or none: a secret opens exactly when it exists, the location is allowed, and the
      token is left out or shows a grant for this secret and its current policy version that has not expired. The
      location is asked with and without a token; a grant for another secret, and anything else, are told apart. */
  lemma DecidedExactly(mac: string -> string, w: World, id: string, token: Option<string>, now: real, located: bool)
    requires Good(w) && UnforgedToken(mac, w.minted, token)
    ensures
      var answer := Authorize(mac, w, id, token, now, located);
      && (answer == NotFound <==> id !in w.versions)
      && (id in w.versions ==>
            var version := w.versions[id];
            && (answer == Granted(version) <==>
                  located && (NoToken(token) || Shows(mac, w.minted, token, id, version, now)))
            && (answer == LocationRefused <==>
                  !located && (NoToken(token) || Shows(mac, w.minted, token, id, version, now)))
            && (answer == WrongSecret <==>
                  !NoToken(token) && exists other :: other != id && Shows(mac, w.minted, token, other, version, now))
            && (answer.Granted? ==> answer.version == version))
  {
    hide Verify, Shows, Unforged, IdsDotFree, Split;
    assert IdsDotFree(w.minted);
    if id in w.versions && !NoToken(token) {
      var version := w.versions[id];
      assert Some(token.value) == token;
      forall other: string
        ensures Verify(mac, token.value, now, Some(version)) == Accepted(other) <==>
                  Shows(mac, w.minted, token, other, version, now)
      {
        AcceptedExactly(mac, w.minted, token.value, other, version, now);
      }
      assert Verify(mac, token.value, now, Some(version)).Accepted? ==>
          var other := Verify(mac, token.value, now, Some(version)).id;
          Shows(mac, w.minted, token, other, version, now);
    }
  }

  /** A token that authorizes a secret was granted for that secret and its current policy version. */
  lemma AuthorizedByGrant(mac: string -> string, w: World, id: string, token: string, now: real, located: bool)
    requires Good(w) && token != "" && Authorize(mac, w, id, Some(token), now, located).Granted?
    requires Unforged(mac, w.minted, Split(token).value.sig)
    ensures
      located && exists g :: g in w.minted && g.id == id && g.Version() == w.versions[id] && now <= g.expiry as real
  {
    hide Verify, Unforged;
    DecidedExactly(mac, w, id, Some(token), now, located);
  }

  lemma AcceptedIsSplit(mac: string -> string, token: string, now: real, expected: Option<int>)
    requires Verify(mac, token, now, expected).Accepted?
    ensures Split(token).Some? && (expected.Some? ==> Split(token).value.version == expected.value)
  {
  }

  /** A token that worked before a policy update works at no later time: not after the update, nor after anything that
      follows it. */
  lemma RevokedForGood(mac: string -> string, w: World, id: string, token: string, now: real, located: bool,
                       before: seq<Step>, expiry: int, after: seq<Step>, now': real, located': bool)
    requires Good(w) && token != "" && Authorize(mac, w, id, Some(token), now, located).Granted?
    ensures
      !Authorize(mac, RunAll(w, before + [UpdatePolicy(id, expiry)] + after), id, Some(token), now', located').Granted?
  {
    hide RunAll, Split, Verify;
    var w1 := RunAll(w, before);
    GoodOverRuns(w, before);
    VersionsGrow(w, before, id);
    var w2 := Next(w1, UpdatePolicy(id, expiry));
    RunStep(w1, UpdatePolicy(id, expiry));
    RunJoin(w, before, [UpdatePolicy(id, expiry)]);
    RunJoin(w, before + [UpdatePolicy(id, expiry)], after);
    GoodOverRuns(w1, [UpdatePolicy(id, expiry)]);
    VersionsGrow(w2, after, id);
    var w3 := RunAll(w2, after);
    AcceptedIsSplit(mac, token, now, Some(w.versions[id]));
    if id in w3.versions && Verify(mac, token, now', Some(w3.versions[id])).Accepted? {
      AcceptedIsSplit(mac, token, now', Some(w3.versions[id]));
      assert false;
    }
  }

  lemma RunStep(w: World, step: Step)
    ensures RunAll(w, [step]) == Next(w, step)
  {
    assert RunAll(Next(w, step), [step][1..]) == Next(w, step);
  }

  /** The token made by an update authorizes the secret until it expires or the policy changes again. */
  lemma NewTokenWorks(mac: string -> string, w: World, id: string, expiry: int, now: real)
    requires id in w.versions && DotFree(id) && forall payload :: DotFree(mac(payload))
    ensures
      var g := Modern(id, expiry, w.versions[id] + 1);
      var w' := Next(w, UpdatePolicy(id, expiry));
      && w'.minted == w.minted + {g}
      && (Authorize(mac, w', id, Some(Token(mac, g)), now, true).Granted? <==> now <= expiry as real)
  {
    hide Verify, Payload;
    var g := Modern(id, expiry, w.versions[id] + 1);
    assert Token(mac, g)[|Payload(g)|] == '.';
    VerifyUndoesCreate(mac, g, now, Some(w.versions[id] + 1));
  }

  /** The token made with a secret authorizes it until it expires, and only where the location is allowed. */
  lemma FirstTokenWorks(mac: string -> string, w: World, id: string, expiry: int, now: real, located: bool)
    requires id !in w.used && DotFree(id) && forall payload :: DotFree(mac(payload))
    ensures
      var g := Modern(id, expiry, 1);
      var w' := Next(w, Create(id, expiry));
      && w'.minted == w.minted + {g}
      && (Authorize(mac, w', id, Some(Token(mac, g)), now, located).Granted? <==> located && now <= expiry as real)
  {
    hide Verify, Payload;
    var g := Modern(id, expiry, 1);
    assert Token(mac, g)[|Payload(g)|] == '.';
    VerifyUndoesCreate(mac, g, now, Some(1));
  }

  /** A deleted secret is not found by anybody, whatever happens afterwards. */
  lemma DeletedForGood(mac: string -> string, w: World, id: string, after: seq<Step>, token: Option<string>, now: real,
                       located: bool)
    requires Good(w) && id in w.used
    ensures Authorize(mac, RunAll(w, [Delete(id)] + after), id, token, now, located) == NotFound
  {
    hide RunAll;
    var w' := Next(w, Delete(id));
    RunStep(w, Delete(id));
    RunJoin(w, [Delete(id)], after);
    VersionsGrow(w', after, id);
  }

  /** The policy row of one secret, and the token kept with the secret. */
  class PolicyRow {
    const id: string
    var version: int
    var signedToken: string

    constructor (mac: string -> string, id: string, expiry: int)
      ensures this.id == id && version == 1 && signedToken == Token(mac, Modern(id, expiry, 1))
    {
      this.id := id;
      version := 1;
      signedToken := Token(mac, Modern(id, expiry, 1));
    }

    /** The new token verifies for the new version until the secret expires; the old one no longer does. */
    method UpdatePolicy(mac: string -> string, expiry: int)
      requires DotFree(id) && forall payload :: DotFree(mac(payload))
      modifies this
      ensures version == old(version) + 1
      ensures
        forall now: real ::
          Verify(mac, signedToken, now, Some(version)) == if now > expiry as real then Expired else Accepted(id)
      ensures forall now: real :: Verify(mac, old(signedToken), now, Some(old(version))).Accepted?
                ==> !Verify(mac, old(signedToken), now, Some(version)).Accepted?
    {
      version := version + 1;
      signedToken := Token(mac, Modern(id, expiry, version));
      forall now: real
        ensures Verify(mac, signedToken, now, Some(version)) == if now > expiry as real then Expired else Accepted(id)
      {
        VerifyUndoesCreate(mac, Modern(id, expiry, version), now, Some(version));
      }
    }
  }
}
