/** The runtime identity: one snapshot of credential, asset and hub origins, replaced as
    a whole under a lock, with a generation that every connect attempt checks. */
module RuntimeIdentity {
  import opened Text

  datatype Snapshot = Snapshot(
    token: string, asset: string, group: string, groupKnown: bool, ws: string, api: string, generation: nat)

  /** URL and asset-ID rules that live elsewhere in the agent. */
  datatype Rules = Rules(
    normalizeWS: string -> string, normalizeAPI: string -> string, apiFromWS: string -> string,
    validAsset: string -> bool)

  const MAX_TOKEN: nat := 4096

  predicate TokenChar(c: char) {
    'a' <= c <= 'z' || 'A' <= c <= 'Z' || '0' <= c <= '9' || c in "-._~+/="
  }

  /** What may be issued as a bearer token. */
  ghost predicate Bearer(token: string) {
    0 < |token| <= MAX_TOKEN && forall i :: 0 <= i < |token| ==> TokenChar(token[i])
  }

  /** normalizeIssuedAgentToken. */
  function NormalizeToken(raw: string): (t: Option<string>)
    ensures t.Some? <==> Bearer(TrimSpace(raw))
    ensures t.Some? ==> t.value == TrimSpace(raw) && Trimmed(t.value)
  {
    var token := TrimSpace(raw);
    if token == "" || |token| > MAX_TOKEN || exists i :: 0 <= i < |token| && !TokenChar(token[i]) then None
    else Some(token)
  }

  /** A credential after its parts were trimmed, normalized and accepted; an empty
      origin is one that was not issued. */
  datatype Issued = Issued(token: string, asset: string, ws: string, api: string, group: Option<string>)

  function AdoptCredential(cur: Snapshot, n: Issued, rules: Rules): Snapshot {
    var ws := if n.ws != "" then n.ws else cur.ws;
    Snapshot(n.token, n.asset,
             if n.group.Some? then n.group.value else cur.group,
             n.group.Some? || cur.groupKnown,
             ws,
             if n.api != "" then n.api else if n.ws != "" || cur.api == "" then rules.apiFromWS(ws) else cur.api,
             cur.generation + 1)
  }

  function WithAsset(s: Snapshot, asset: string, rules: Rules): Snapshot {
    s.(asset := asset, api := if s.api == "" then rules.apiFromWS(s.ws) else s.api, generation := s.generation + 1)
  }

  /** An asset ID from the handshake that `expected` was taken for; any rotation since
      then wins. */
  function AdoptAsset(cur: Snapshot, expected: Snapshot, asset: string, rules: Rules): Snapshot {
    if cur.generation != expected.generation then cur else WithAsset(cur, asset, rules)
  }

  function UpdateToken(cur: Snapshot, token: string): Snapshot {
    if cur.token == token then cur else cur.(token := token, generation := cur.generation + 1)
  }

  class RuntimeIdentitySource {
    var current: Snapshot
    const rules: Rules

    constructor (initial: Snapshot, rules: Rules)
      ensures current == initial.(generation := 1) && this.rules == rules
    {
      current := initial.(generation := 1);
      this.rules := rules;
    }

    function Normalized(raw: Issued): Option<Issued> {
      var token, asset := NormalizeToken(raw.token), TrimSpace(raw.asset);
      if token.None? || !rules.validAsset(asset) then None
      else Some(Issued(token.value, asset, rules.normalizeWS(raw.ws), rules.normalizeAPI(raw.api),
                       if raw.group.Some? then Some(TrimSpace(raw.group.value)) else None))
    }

    method Adopt(raw: Issued) returns (r: Option<Snapshot>)
      modifies this
      ensures r.Some? <==> Normalized(raw).Some?
      ensures r.None? ==> current == old(current)
      ensures r.Some? ==> current == r.value == AdoptCredential(old(current), Normalized(raw).value, rules)
      ensures r.Some? <==> NormalizeToken(raw.token).Some? && rules.validAsset(TrimSpace(raw.asset))
      ensures r.Some? ==> current.token == TrimSpace(raw.token) && current.asset == TrimSpace(raw.asset)
      ensures r.Some? && raw.group.Some? ==> current.group == TrimSpace(raw.group.value)
      ensures r.Some? && rules.normalizeWS(raw.ws) != "" ==> current.ws == rules.normalizeWS(raw.ws)
      ensures r.Some? && rules.normalizeAPI(raw.api) != "" ==> current.api == rules.normalizeAPI(raw.api)
    {
      var n := Normalized(raw);
      if n == None {
        return None;
      }
      var next := Install(n.value);
      return Some(next);
    }

    /** The lock section of AdoptCredential. */
    method Install(n: Issued) returns (next: Snapshot)
      modifies this
      ensures current == next == AdoptCredential(old(current), n, rules)
    {
      next := current.(token := n.token, asset := n.asset);
      if n.group.Some? {
        next := next.(group := n.group.value, groupKnown := true);
      }
      if n.ws != "" {
        next := next.(ws := n.ws);
      }
      if n.api != "" {
        next := next.(api := n.api);
      } else if n.ws != "" || next.api == "" {
        next := next.(api := rules.apiFromWS(next.ws));
      }
      next := next.(generation := next.generation + 1);
      current := next;
    }

    method AdoptCanonicalAsset(expected: Snapshot, raw: string) returns (r: Option<(Snapshot, bool)>)
      modifies this
      ensures r.Some? <==> rules.validAsset(TrimSpace(raw))
      ensures r.None? ==> current == old(current)
      ensures r.Some? ==> current == r.value.0 == AdoptAsset(old(current), expected, TrimSpace(raw), rules)
      ensures r.Some? ==> r.value.1 == (old(current).generation == expected.generation)
    {
      var asset := TrimSpace(raw);
      if !rules.validAsset(asset) {
        return None;
      }
      if current.generation != expected.generation {
        return Some((current, false));
      }
      StoreAsset(asset);
      return Some((current, true));
    }

    /** The lock section of AdoptCanonicalAsset, for the expected generation. */
    method StoreAsset(asset: string)
      modifies this
      ensures current == WithAsset(old(current), asset, rules)
    {
      var next := current.(asset := asset);
      if next.api == "" {
        next := next.(api := rules.apiFromWS(next.ws));
      }
      current := next.(generation := next.generation + 1);
    }

    method SetToken(raw: string) returns (ok: bool)
      modifies this
      ensures ok == NormalizeToken(raw).Some?
      ensures current == if ok then UpdateToken(old(current), NormalizeToken(raw).value) else old(current)
    {
      var token := NormalizeToken(raw);
      if token == None {
        return false;
      }
      StoreToken(token.value);
      return true;
    }

    /** The lock section of UpdateToken. */
    method StoreToken(token: string)
      modifies this
      ensures current == UpdateToken(old(current), token)
    {
      if current.token == token {
        return;
      }
      current := current.(token := token, generation := current.generation + 1);
    }

    /** For a snapshot of an earlier moment (see GenerationsIdentify): has nothing changed? */
    method MatchesConnection(s: Snapshot) returns (same: bool)
      ensures Past(s, current) ==> (same <==> current == s)
      ensures same ==> current.generation == s.generation
    {
      same := current.generation == s.generation;
    }
  }

  // ------------------------------------------------------------ histories of updates

  datatype Update = Credential(issued: Issued) | Asset(expected: Snapshot, asset: string) | Token(token: string)

  function Apply(cur: Snapshot, u: Update, rules: Rules): Snapshot {
    match u
    case Credential(issued) => AdoptCredential(cur, issued, rules)
    case Asset(expected, asset) => AdoptAsset(cur, expected, asset, rules)
    case Token(token) => UpdateToken(cur, token)
  }

  /** The successive values of `current`. */
  function History(cur: Snapshot, us: seq<Update>, rules: Rules): (h: seq<Snapshot>)
    ensures |h| == |us| + 1 && h[0] == cur
    decreases |us|
  {
    if us == [] then [cur] else [cur] + History(Apply(cur, us[0], rules), us[1..], rules)
  }

  /** `old` is an earlier value of the identity that is now `cur`. */
  ghost predicate Past(old': Snapshot, cur: Snapshot) {
    old'.generation <= cur.generation && (old'.generation == cur.generation ==> old' == cur)
  }

  lemma ApplyIsPast(old': Snapshot, cur: Snapshot, u: Update, rules: Rules)
    requires Past(old', cur)
    ensures Past(old', Apply(cur, u, rules))
    ensures Apply(cur, u, rules) != cur ==> Apply(cur, u, rules).generation == cur.generation + 1
  {
  }

  /** Over every history of updates the generation never falls, every change raises it,
      and two moments with equal generations have equal snapshots. */
  lemma {:induction false} GenerationsIdentify(cur: Snapshot, us: seq<Update>, rules: Rules, i: nat, j: nat)
    requires i <= j <= |us|
    ensures Past(History(cur, us, rules)[i], History(cur, us, rules)[j])
    decreases |us|, j
  {
    var h := History(cur, us, rules);
    if i > 0 {
      GenerationsIdentify(Apply(cur, us[0], rules), us[1..], rules, i - 1, j - 1);
    } else if j > 0 {
      var next := Apply(cur, us[0], rules);
      GenerationsIdentify(next, us[1..], rules, 0, j - 1);
      ApplyIsPast(cur, cur, us[0], rules);
    }
  }

  // ----------------------------------------------------------- what is in force

  /** What each part of the identity is after a credential: issued parts replace, a part that
      was not issued stays, and a new socket origin brings its own API origin unless one was
      issued with it. */
  lemma CredentialFields(cur: Snapshot, n: Issued, rules: Rules)
    ensures var s := Apply(cur, Credential(n), rules);
      && s.token == n.token && s.asset == n.asset
      && (if n.group.Some? then s.group == n.group.value && s.groupKnown
          else s.group == cur.group && s.groupKnown == cur.groupKnown)
      && (n.ws != "" ==> s.ws == n.ws) && (n.ws == "" ==> s.ws == cur.ws)
      && (n.api != "" ==> s.api == n.api)
      && (n.api == "" && n.ws != "" ==> s.api == rules.apiFromWS(n.ws))
      && (n.api == "" && n.ws == "" && cur.api != "" ==> s.api == cur.api)
      && (n.api == "" && n.ws == "" && cur.api == "" ==> s.api == rules.apiFromWS(cur.ws))
  {
  }

  /** A token update changes the token alone, and nothing if it is the same; an asset update the asset alone, with a missing
      API origin filled in, and only for the identity it was meant for. */
  lemma UpdateFields(cur: Snapshot, token: string, expected: Snapshot, asset: string, rules: Rules)
    ensures var s := Apply(cur, Token(token), rules);
      s == cur.(token := token, generation := cur.generation + if token == cur.token then 0 else 1)
    ensures var s := Apply(cur, Asset(expected, asset), rules);
      if expected.generation == cur.generation
      then s == cur.(asset := asset, api := s.api, generation := cur.generation + 1)
           && (s.api == if cur.api != "" then cur.api else rules.apiFromWS(cur.ws))
      else s == cur
  {
  }

  /** The token, and the socket origin, that an update brings. */
  function TokenOf(u: Update): Option<string> {
    match u
    case Credential(n) => Some(n.token)
    case Token(token) => Some(token)
    case Asset(_, _) => None
  }

  function OriginOf(u: Update): Option<string> {
    if u.Credential? && u.issued.ws != "" then Some(u.issued.ws) else None
  }

  /** The last value that a list of updates brings, or the one before them. */
  function Latest(first: string, us: seq<Update>, brings: Update -> Option<string>): string
    decreases |us|
  {
    if us == [] then first
    else if brings(Last(us)).Some? then brings(Last(us)).value
    else Latest(first, Front(us), brings)
  }

  lemma {:induction false} LatestCons(first: string, us: seq<Update>, brings: Update -> Option<string>)
    requires us != []
    ensures Latest(first, us, brings) ==
      Latest(if brings(us[0]).Some? then brings(us[0]).value else first, us[1..], brings)
    decreases |us|
  {
    if |us| > 1 {
      assert Front(us)[1..] == Front(us[1..]) && Last(us[1..]) == Last(us);
      LatestCons(first, Front(us), brings);
    }
  }

  /** Over every history the token in force is that of the last credential or token update,
      and the socket origin that of the last credential that brought one; without any, the
      initial ones. */
  lemma {:induction false} LatestIsInForce(cur: Snapshot, us: seq<Update>, rules: Rules)
    ensures Last(History(cur, us, rules)).token == Latest(cur.token, us, TokenOf)
    ensures Last(History(cur, us, rules)).ws == Latest(cur.ws, us, OriginOf)
    decreases |us|
  {
    if us != [] {
      LatestIsInForce(Apply(cur, us[0], rules), us[1..], rules);
      LatestCons(cur.token, us, TokenOf);
      LatestCons(cur.ws, us, OriginOf);
    }
  }

  // --------------------------------------------- connect attempts against rotations

  /** How far a connect attempt has come: dialing with its snapshot, holding the handshake's
      canonical asset ID, having offered it for adoption, past the first check, and past the
      final check under the dispatch lock. */
  datatype Stage = Dialing | Handshaken | Adopted | Matched | Checked

  /** An attempt's snapshot, the asset ID its handshake returned (trimmed; an invalid one ends
      the attempt), the identity it is bound to, and the number of identity changes before its
      snapshot and before its final check. */
  datatype Attempt = Attempt(stage: Stage, snap: Snapshot, canonical: string, conn: Snapshot, from: nat, to: nat)

  /** An installed socket's attempt, and the identity in force at the final check. */
  datatype Installed = Installed(id: nat, a: Attempt, seen: Snapshot)

  /** `changes` lists every change of `cur` with the attempt whose adoption it was, if any. */
  datatype World = World(
    base: nat, cur: Snapshot, changes: seq<Option<nat>>, attempts: map<nat, Attempt>, seen: map<nat, Snapshot>,
    installed: seq<Installed>)

  function Start(cur: Snapshot): World {
    World(cur.generation, cur, [], map[], map[], [])
  }

  datatype Event =
    | Rotate(update: Update)
    | Begin(id: nat)
    | Handshake(id: nat, canonical: string)
    | AdoptCanonical(id: nat)
    | FirstCheck(id: nat)
    | FinalCheck(id: nat)
    | Install(id: nat)
    | Abort(id: nat)

  predicate At(w: World, id: nat, stage: Stage) {
    id in w.attempts && w.attempts[id].stage == stage
  }

  function Drop(w: World, id: nat): World {
    w.(attempts := w.attempts - {id})
  }

  function Set(w: World, id: nat, a: Attempt): World {
    w.(attempts := w.attempts[id := a])
  }

  /** Replaces the identity, listing the change if it is one. */
  function Becomes(w: World, next: Snapshot, author: Option<nat>): World {
    w.(cur := next, changes := if next == w.cur then w.changes else w.changes + [author])
  }

  function Adopts(w: World, id: nat, a: Attempt, rules: Rules): World {
    if a.snap.token == "" || a.canonical == "" then Set(w, id, a.(stage := Adopted))
    else
      var next := AdoptAsset(w.cur, a.snap, a.canonical, rules);
      Set(Becomes(w, next, Some(id)), id,
          a.(stage := Adopted, conn := if w.cur.generation == a.snap.generation then next else a.snap))
  }

  function Step(w: World, e: Event, rules: Rules): World {
    match e
    case Rotate(u) => Becomes(w, Apply(w.cur, u, rules), None)
    case Begin(id) =>
      if id in w.attempts then w
      else Set(w, id, Attempt(Dialing, w.cur, "", w.cur, |w.changes|, |w.changes|))
    case Abort(id) => Drop(w, id)
    case Handshake(id, canonical) =>
      if At(w, id, Dialing) then Set(w, id, w.attempts[id].(stage := Handshaken, canonical := canonical)) else w
    case AdoptCanonical(id) => if At(w, id, Handshaken) then Adopts(w, id, w.attempts[id], rules) else w
    case FirstCheck(id) =>
      if !At(w, id, Adopted) then w
      else if w.cur.generation == w.attempts[id].conn.generation then Set(w, id, w.attempts[id].(stage := Matched))
      else Drop(w, id)
    case FinalCheck(id) =>
      if !At(w, id, Matched) then w
      else if w.cur.generation == w.attempts[id].conn.generation
      then Set(w, id, w.attempts[id].(stage := Checked, to := |w.changes|)).(seen := w.seen[id := w.cur])
      else Drop(w, id)
    case Install(id) =>
      if !At(w, id, Checked) || id !in w.seen then w
      else Drop(w, id).(installed := w.installed + [Installed(id, w.attempts[id], w.seen[id])])
  }

  function Run(w: World, es: seq<Event>, rules: Rules): World
    decreases |es|
  {
    if es == [] then w else Run(Step(w, es[0], rules), es[1..], rules)
  }

  // ------------------------------------------------------------------ the invariant

  /** The bound identity is the handshake's own snapshot, or that snapshot with the asset ID
      (and, if it was missing, the API origin) that this very handshake returned. */
  ghost predicate BoundTo(a: Attempt, rules: Rules) {
    || a.conn == a.snap
    || (a.snap.token != "" && a.canonical != "" && a.conn == WithAsset(a.snap, a.canonical, rules))
  }

  /** The identity changes from the snapshot to the bound identity are the attempt's own. */
  ghost predicate OwnChange(changes: seq<Option<nat>>, id: nat, a: Attempt) {
    || (a.conn == a.snap)
    || (a.conn.generation == a.snap.generation + 1 && a.from < |changes| && changes[a.from] == Some(id))
  }

  ghost predicate AttemptOk(w: World, id: nat, a: Attempt, rules: Rules) {
    && Past(a.snap, w.cur) && Past(a.conn, w.cur) && BoundTo(a, rules) && OwnChange(w.changes, id, a)
    && a.snap.generation == w.base + a.from
    && (a.stage.Dialing? || a.stage.Handshaken? ==> a.conn == a.snap)
    && (a.stage.Checked? ==> id in w.seen && w.seen[id] == a.conn && a.conn.generation == w.base + a.to)
  }

  ghost predicate InstallOk(w: World, s: Installed, rules: Rules) {
    && s.seen == s.a.conn && BoundTo(s.a, rules) && OwnChange(w.changes, s.id, s.a)
    && s.a.snap.generation == w.base + s.a.from && s.a.conn.generation == w.base + s.a.to && s.a.to <= |w.changes|
  }

  ghost predicate Inv(w: World, rules: Rules) {
    && w.cur.generation == w.base + |w.changes|
    && (forall id :: id in w.attempts ==> AttemptOk(w, id, w.attempts[id], rules))
    && (forall k :: 0 <= k < |w.installed| ==> InstallOk(w, w.installed[k], rules))
  }

  lemma BecomesKeepsAttempt(w: World, next: Snapshot, author: Option<nat>, id: nat, rules: Rules)
    requires id in w.attempts && AttemptOk(w, id, w.attempts[id], rules)
    requires next == w.cur || next.generation == w.cur.generation + 1
    ensures AttemptOk(Becomes(w, next, author), id, w.attempts[id], rules)
  {
  }

  lemma BecomesKeepsInv(w: World, next: Snapshot, author: Option<nat>, rules: Rules)
    requires Inv(w, rules) && (next == w.cur || next.generation == w.cur.generation + 1)
    ensures Inv(Becomes(w, next, author), rules)
  {
    var w' := Becomes(w, next, author);
    forall id | id in w'.attempts
      ensures AttemptOk(w', id, w'.attempts[id], rules)
    {
      BecomesKeepsAttempt(w, next, author, id, rules);
    }
    forall k | 0 <= k < |w'.installed|
      ensures InstallOk(w', w'.installed[k], rules)
    {
      assert InstallOk(w, w.installed[k], rules);
    }
  }

  lemma SetKeepsInv(w: World, id: nat, a: Attempt, rules: Rules)
    requires Inv(w, rules) && AttemptOk(w, id, a, rules)
    ensures Inv(Set(w, id, a), rules)
  {
    var w' := Set(w, id, a);
    forall k | k in w'.attempts
      ensures AttemptOk(w', k, w'.attempts[k], rules)
    {
      assert k != id ==> AttemptOk(w, k, w.attempts[k], rules);
    }
    forall k | 0 <= k < |w'.installed|
      ensures InstallOk(w', w'.installed[k], rules)
    {
      assert InstallOk(w, w.installed[k], rules);
    }
  }

  lemma DropKeepsInv(w: World, id: nat, rules: Rules)
    requires Inv(w, rules)
    ensures Inv(Drop(w, id), rules)
  {
    var w' := Drop(w, id);
    forall k | k in w'.attempts
      ensures AttemptOk(w', k, w'.attempts[k], rules)
    {
      assert AttemptOk(w, k, w.attempts[k], rules);
    }
    forall k | 0 <= k < |w'.installed|
      ensures InstallOk(w', w'.installed[k], rules)
    {
      assert InstallOk(w, w.installed[k], rules);
    }
  }

  lemma AdoptKeepsInv(w: World, id: nat, rules: Rules)
    requires Inv(w, rules) && At(w, id, Handshaken)
    ensures Inv(Adopts(w, id, w.attempts[id], rules), rules)
  {
    var a := w.attempts[id];
    assert AttemptOk(w, id, a, rules);
    if a.snap.token == "" || a.canonical == "" {
      SetKeepsInv(w, id, a.(stage := Adopted), rules);
    } else {
      var next := AdoptAsset(w.cur, a.snap, a.canonical, rules);
      BecomesKeepsInv(w, next, Some(id), rules);
      BecomesKeepsAttempt(w, next, Some(id), id, rules);
      var conn := if w.cur.generation == a.snap.generation then next else a.snap;
      SetKeepsInv(Becomes(w, next, Some(id)), id, a.(stage := Adopted, conn := conn), rules);
    }
  }

  lemma CheckKeepsInv(w: World, id: nat, rules: Rules)
    requires Inv(w, rules) && At(w, id, Matched) && w.cur.generation == w.attempts[id].conn.generation
    ensures Inv(Step(w, FinalCheck(id), rules), rules)
  {
    var a, seen := w.attempts[id].(stage := Checked, to := |w.changes|), w.seen[id := w.cur];
    assert AttemptOk(w, id, w.attempts[id], rules);
    assert AttemptOk(w.(seen := seen), id, a, rules);
    var w' := Step(w, FinalCheck(id), rules);
    forall k | k in w'.attempts
      ensures AttemptOk(w', k, w'.attempts[k], rules)
    {
      assert k != id ==> AttemptOk(w, k, w.attempts[k], rules);
    }
    forall k | 0 <= k < |w'.installed|
      ensures InstallOk(w', w'.installed[k], rules)
    {
      assert InstallOk(w, w.installed[k], rules);
    }
  }

  lemma InstallKeepsInv(w: World, id: nat, rules: Rules)
    requires Inv(w, rules) && At(w, id, Checked) && id in w.seen
    ensures Inv(Step(w, Install(id), rules), rules)
  {
    assert AttemptOk(w, id, w.attempts[id], rules);
    DropKeepsInv(w, id, rules);
    var d, s, w' := Drop(w, id), Installed(id, w.attempts[id], w.seen[id]), Step(w, Install(id), rules);
    assert InstallOk(w', s, rules);
    forall k | 0 <= k < |w'.installed|
      ensures InstallOk(w', w'.installed[k], rules)
    {
      assert k < |d.installed| ==> InstallOk(d, d.installed[k], rules);
    }
    forall k | k in w'.attempts
      ensures AttemptOk(w', k, w'.attempts[k], rules)
    {
      assert AttemptOk(d, k, d.attempts[k], rules);
    }
  }

  lemma ChecksKeepInv(w: World, id: nat, rules: Rules)
    requires Inv(w, rules)
    ensures Inv(Step(w, FirstCheck(id), rules), rules) && Inv(Step(w, FinalCheck(id), rules), rules)
  {
    DropKeepsInv(w, id, rules);
    if At(w, id, Adopted) && w.cur.generation == w.attempts[id].conn.generation {
      assert AttemptOk(w, id, w.attempts[id], rules);
      SetKeepsInv(w, id, w.attempts[id].(stage := Matched), rules);
    }
    if At(w, id, Matched) && w.cur.generation == w.attempts[id].conn.generation {
      CheckKeepsInv(w, id, rules);
    }
  }

  lemma EarlyKeepsInv(w: World, id: nat, canonical: string, rules: Rules)
    requires Inv(w, rules)
    ensures Inv(Step(w, Begin(id), rules), rules) && Inv(Step(w, Handshake(id, canonical), rules), rules)
  {
    SetKeepsInv(w, id, Attempt(Dialing, w.cur, "", w.cur, |w.changes|, |w.changes|), rules);
    if At(w, id, Dialing) {
      assert AttemptOk(w, id, w.attempts[id], rules);
      SetKeepsInv(w, id, w.attempts[id].(stage := Handshaken, canonical := canonical), rules);
    }
  }

  lemma StepKeepsInv(w: World, e: Event, rules: Rules)
    requires Inv(w, rules)
    ensures Inv(Step(w, e, rules), rules)
  {
    match e
    case Rotate(u) =>
      ApplyIsPast(w.cur, w.cur, u, rules);
      BecomesKeepsInv(w, Apply(w.cur, u, rules), None, rules);
    case AdoptCanonical(id) =>
      if At(w, id, Handshaken) {
        AdoptKeepsInv(w, id, rules);
      }
    case Begin(id) => EarlyKeepsInv(w, id, "", rules);
    case Handshake(id, canonical) => EarlyKeepsInv(w, id, canonical, rules);
    case FirstCheck(id) => ChecksKeepInv(w, id, rules);
    case FinalCheck(id) => ChecksKeepInv(w, id, rules);
    case Install(id) =>
      if At(w, id, Checked) && id in w.seen {
        InstallKeepsInv(w, id, rules);
      }
    case Abort(id) => DropKeepsInv(w, id, rules);
  }

  lemma {:induction false} RunKeepsInv(w: World, es: seq<Event>, rules: Rules)
    requires Inv(w, rules)
    ensures Inv(Run(w, es, rules), rules)
    decreases |es|
  {
    if es != [] {
      StepKeepsInv(w, es[0], rules);
      RunKeepsInv(Step(w, es[0], rules), es[1..], rules);
    }
  }

  // ------------------------------------------------------------------- main results

  /** In every interleaving of connect attempts with credential, token and asset updates, an
      installed socket was bound to the identity in force at its final check. That identity is
      the snapshot its handshake used, or that snapshot with the asset ID this same handshake
      returned, so a canonical asset ID is only ever paired with the token and origins of its
      own handshake. */
  lemma InstalledSocketsAreCurrent(cur: Snapshot, es: seq<Event>, rules: Rules)
    ensures var w := Run(Start(cur), es, rules);
      forall k :: 0 <= k < |w.installed| ==>
        var s := w.installed[k];
        && s.seen == s.a.conn
        && s.a.conn.token == s.a.snap.token && s.a.conn.ws == s.a.snap.ws && s.a.conn.group == s.a.snap.group
        && (|| s.a.conn == s.a.snap
            || (s.a.snap.token != "" && s.a.canonical != "" && s.a.conn == WithAsset(s.a.snap, s.a.canonical, rules)))
  {
    RunKeepsInv(Start(cur), es, rules);
    var w := Run(Start(cur), es, rules);
    assert forall k :: 0 <= k < |w.installed| ==> InstallOk(w, w.installed[k], rules);
  }

  /** And no other event changed the identity between an installed socket's snapshot and its
      final check: there was no change at all, or just the adoption by the attempt itself. */
  lemma NoRotationBeforeInstall(cur: Snapshot, es: seq<Event>, rules: Rules)
    ensures var w := Run(Start(cur), es, rules);
      forall k :: 0 <= k < |w.installed| ==>
        var s := w.installed[k];
        && s.a.from <= s.a.to <= s.a.from + 1 && s.a.to <= |w.changes|
        && forall i :: s.a.from <= i < s.a.to ==> w.changes[i] == Some(s.id)
  {
    RunKeepsInv(Start(cur), es, rules);
    var w := Run(Start(cur), es, rules);
    forall k | 0 <= k < |w.installed|
      ensures var s := w.installed[k];
        && s.a.from <= s.a.to <= s.a.from + 1 && s.a.to <= |w.changes|
        && forall i :: s.a.from <= i < s.a.to ==> w.changes[i] == Some(s.id)
    {
      assert InstallOk(w, w.installed[k], rules);
    }
  }

  // -------------------------------------------------------------- the same over events

  /** The identity has moved on from what a still unchecked attempt is bound to. */
  ghost predicate Stale(w: World, id: nat) {
    && id in w.attempts && !w.attempts[id].stage.Checked?
    && w.attempts[id].conn.generation < w.cur.generation
  }

  /** A change of the identity by anything but the attempt's own adoption. */
  ghost predicate Foreign(w: World, e: Event, id: nat, rules: Rules) {
    Step(w, e, rules).cur != w.cur && e != AdoptCanonical(id)
  }

  lemma ForeignMakesStale(w: World, e: Event, id: nat, rules: Rules)
    requires Inv(w, rules) && id in w.attempts && !w.attempts[id].stage.Checked? && Foreign(w, e, id, rules)
    ensures Stale(Step(w, e, rules), id)
  {
    assert AttemptOk(w, id, w.attempts[id], rules);
    if e.Rotate? {
      ApplyIsPast(w.cur, w.cur, e.update, rules);
    }
  }

  lemma StaleStays(w: World, e: Event, id: nat, rules: Rules)
    requires Inv(w, rules) && Stale(w, id) && id in Step(w, e, rules).attempts
    ensures Stale(Step(w, e, rules), id)
  {
    assert AttemptOk(w, id, w.attempts[id], rules);
    if e.Rotate? {
      ApplyIsPast(w.cur, w.cur, e.update, rules);
    }
  }

  /** The attempt does not end during these events. */
  ghost predicate Lasts(w: World, es: seq<Event>, id: nat, rules: Rules)
    decreases |es|
  {
    id in w.attempts && (es != [] ==> Lasts(Step(w, es[0], rules), es[1..], id, rules))
  }

  lemma {:induction false} StaleNeverChecked(w: World, es: seq<Event>, id: nat, rules: Rules)
    requires Inv(w, rules) && Stale(w, id) && Lasts(w, es, id, rules)
    ensures Stale(Run(w, es, rules), id)
    decreases |es|
  {
    if es != [] {
      StepKeepsInv(w, es[0], rules);
      StaleStays(w, es[0], id, rules);
      StaleNeverChecked(Step(w, es[0], rules), es[1..], id, rules);
    }
  }

  lemma RunAppend(w: World, a: seq<Event>, b: seq<Event>, rules: Rules)
    ensures Run(w, a + b, rules) == Run(Run(w, a, rules), b, rules)
    decreases |a|
  {
    if a == [] {
      assert a + b == b;
    } else {
      assert (a + b)[1..] == a[1..] + b;
      RunAppend(Step(w, a[0], rules), a[1..], b, rules);
    }
  }

  /** In every run: once any event but its own adoption changes the identity, an attempt that
      has not passed its final check never passes it, however long it goes on. */
  lemma RotationStopsAttempt(cur: Snapshot, before: seq<Event>, e: Event, after: seq<Event>, id: nat, rules: Rules)
    requires var w := Run(Start(cur), before, rules);
      && id in w.attempts && !w.attempts[id].stage.Checked? && Foreign(w, e, id, rules)
      && Lasts(Step(w, e, rules), after, id, rules)
    ensures var w := Run(Start(cur), before + [e] + after, rules);
      id in w.attempts && !w.attempts[id].stage.Checked?
  {
    var w := Run(Start(cur), before, rules);
    RunKeepsInv(Start(cur), before, rules);
    ForeignMakesStale(w, e, id, rules);
    StepKeepsInv(w, e, rules);
    StaleNeverChecked(Step(w, e, rules), after, id, rules);
    assert before + [e] + after == before + ([e] + after);
    RunAppend(Start(cur), before, [e] + after, rules);
    RunAppend(w, [e], after, rules);
    assert [e][1..] == [];
  }

  // ------------------------------------------------------------- attempts do get there

  /** An attempt that nothing disturbs, from its snapshot to the install. */
  function Alone(w: World, id: nat, canonical: string, rules: Rules): World {
    var h := Step(Step(w, Begin(id), rules), Handshake(id, canonical), rules);
    var c := Step(Step(h, AdoptCanonical(id), rules), FirstCheck(id), rules);
    Step(Step(c, FinalCheck(id), rules), Install(id), rules)
  }

  lemma AloneAdopts(w: World, id: nat, canonical: string, rules: Rules)
    requires id !in w.attempts
    ensures var h := Step(Step(w, Begin(id), rules), Handshake(id, canonical), rules);
      var c := Step(Step(h, AdoptCanonical(id), rules), FirstCheck(id), rules);
      && At(c, id, Matched) && c.attempts[id].snap == w.cur && c.attempts[id].conn == c.cur
      && c.cur == (if w.cur.token != "" && canonical != "" then WithAsset(w.cur, canonical, rules) else w.cur)
      && c.installed == w.installed
  {
    var h := Step(Step(w, Begin(id), rules), Handshake(id, canonical), rules);
    assert h.cur == w.cur && At(h, id, Handshaken) && h.installed == w.installed;
    assert h.attempts[id].snap == w.cur && h.attempts[id].conn == w.cur && h.attempts[id].canonical == canonical;
    var a := Step(h, AdoptCanonical(id), rules);
    assert At(a, id, Adopted) && a.attempts[id].snap == w.cur && a.attempts[id].conn == a.cur && a.installed == w.installed;
  }

  /** It installs its socket, with the canonical asset adopted if it had a token and got one. */
  lemma UndisturbedAttemptInstalls(w: World, id: nat, canonical: string, rules: Rules)
    requires id !in w.attempts
    ensures var v := Alone(w, id, canonical, rules);
      && |v.installed| == |w.installed| + 1 && v.installed[..|w.installed|] == w.installed
      && Last(v.installed).id == id && Last(v.installed).a.snap == w.cur && Last(v.installed).seen == v.cur
      && v.cur.asset == (if w.cur.token != "" && canonical != "" then canonical else w.cur.asset)
      && v.cur.token == w.cur.token
  {
    AloneAdopts(w, id, canonical, rules);
    var h := Step(Step(w, Begin(id), rules), Handshake(id, canonical), rules);
    var c := Step(Step(h, AdoptCanonical(id), rules), FirstCheck(id), rules);
    var d := Step(c, FinalCheck(id), rules);
    assert At(d, id, Checked) && d.seen[id] == c.cur && d.attempts[id].snap == w.cur && d.installed == w.installed && d.cur == c.cur;
  }
}
