/**
 * Refresh tokens and their rotation on use. The table only grows, so a token's id is its row number.
 * A rotation is two separate writes: retiring the current token, then inserting its successor.
 */
module RefreshTokens {
  import opened Prelude

  datatype Status = Active | Rotated | Revoked | Expired

  datatype Token = Token(
    userId: string, tokenHash: string, previousTokenId: Option<nat>, status: Status, expiresAt: int, usageCount: nat)

  type Table = seq<Token>

  datatype Error = NotFound | NotActive | TokenExpired | Duplicate | Interrupted

  /** Where a rotation is cut short, by a crash or a failing database call. */
  datatype Cut = Nowhere | BeforeUse | BeforeRetire | BeforeInsert

  /** `findUnique` on the hash: the row number, or the table's length when there is none. */
  function Find(t: Table, hash: string): (i: nat)
    ensures i <= |t| && (i < |t| ==> t[i].tokenHash == hash)
    ensures forall k :: 0 <= k < i ==> t[k].tokenHash != hash
  {
    if t == [] || t[0].tokenHash == hash then 0 else 1 + Find(t[1..], hash)
  }

  /** The unique index on the hash refuses a second row. */
  function Insert(t: Table, token: Token): (Table, Result<nat, Error>) {
    if Find(t, token.tokenHash) < |t| then (t, Err(Duplicate)) else (t + [token], Ok(|t|))
  }

  function Create(t: Table, userId: string, hash: string, expiresAt: int): (Table, Result<nat, Error>) {
    Insert(t, Token(userId, hash, None, Active, expiresAt, 0))
  }

  function Rotate(t: Table, hash: string, newHash: string, expiresAt: int, now: int, cut: Cut)
    : (Table, Result<nat, Error>)
  {
    RotateRow(t, Find(t, hash), newHash, expiresAt, now, cut)
  }

  function RotateRow(t: Table, i: nat, newHash: string, expiresAt: int, now: int, cut: Cut): (Table, Result<nat, Error>)
    requires i <= |t|
  {
    if i == |t| then (t, Err(NotFound))
    else if t[i].status != Active then (t, Err(NotActive))
    else if t[i].expiresAt < now then (t, Err(TokenExpired))
    else if cut == BeforeRetire then (t, Err(Interrupted))
    else
      var retired := t[i := t[i].(status := Rotated)];
      if cut == BeforeInsert then (retired, Err(Interrupted))
      else Insert(retired, Token(t[i].userId, newHash, Some(i), Active, expiresAt, 0))
  }

  function ValidateAndRotate(t: Table, hash: string, newHash: string, expiresAt: int, now: int, cut: Cut)
    : (Table, Result<nat, Error>)
  {
    var i := Find(t, hash);
    if i == |t| then (t, Err(NotFound))
    else if t[i].status != Active then (t, Err(NotActive))
    else if t[i].expiresAt < now then (t, Err(TokenExpired))
    else if cut == BeforeUse then (t, Err(Interrupted))
    else Rotate(t[i := t[i].(usageCount := t[i].usageCount + 1)], hash, newHash, expiresAt, now, cut)
  }

  /** Whatever the token's status was. */
  function Revoke(t: Table, hash: string): Table {
    var i := Find(t, hash);
    if i == |t| then t else t[i := t[i].(status := Revoked)]
  }

  function RevokeUser(t: Table, userId: string): (t': Table)
    ensures |t'| == |t|
  {
    seq(|t|, i requires 0 <= i < |t| =>
      if t[i].userId == userId && t[i].status == Active then t[i].(status := Revoked) else t[i])
  }

  class RefreshTokenService {
    var tokens: Table

    constructor ()
      ensures tokens == []
    {
      tokens := [];
    }

    method CreateRefreshToken(userId: string, hash: string, expiresAt: int) returns (r: Result<nat, Error>)
      modifies this
      ensures (tokens, r) == Create(old(tokens), userId, hash, expiresAt)
    {
      if Find(tokens, hash) < |tokens| {
        return Err(Duplicate);
      }
      tokens := tokens + [Token(userId, hash, None, Active, expiresAt, 0)];
      return Ok(|tokens| - 1);
    }

    method RotateRefreshToken(hash: string, newHash: string, expiresAt: int, now: int, cut: Cut)
      returns (r: Result<nat, Error>)
      modifies this
      ensures (tokens, r) == Rotate(old(tokens), hash, newHash, expiresAt, now, cut)
    {
      var i := Find(tokens, hash);
      if i == |tokens| {
        return Err(NotFound);
      }
      var current := tokens[i];
      if current.status != Active {
        return Err(NotActive);
      }
      if current.expiresAt < now {
        return Err(TokenExpired);
      }
      if cut == BeforeRetire {
        return Err(Interrupted);
      }
      tokens := tokens[i := current.(status := Rotated)];
      if cut == BeforeInsert {
        return Err(Interrupted);
      }
      if Find(tokens, newHash) < |tokens| {
        return Err(Duplicate);
      }
      tokens := tokens + [Token(current.userId, newHash, Some(i), Active, expiresAt, 0)];
      return Ok(|tokens| - 1);
    }

    method ValidateAndRotateToken(hash: string, newHash: string, expiresAt: int, now: int, cut: Cut)
      returns (r: Result<nat, Error>)
      modifies this
      ensures (tokens, r) == ValidateAndRotate(old(tokens), hash, newHash, expiresAt, now, cut)
    {
      var i := Find(tokens, hash);
      if i == |tokens| {
        return Err(NotFound);
      }
      if tokens[i].status != Active {
        return Err(NotActive);
      }
      if tokens[i].expiresAt < now {
        return Err(TokenExpired);
      }
      if cut == BeforeUse {
        return Err(Interrupted);
      }
      tokens := tokens[i := tokens[i].(usageCount := tokens[i].usageCount + 1)];
      r := RotateRefreshToken(hash, newHash, expiresAt, now, cut);
    }

    method RevokeRefreshToken(hash: string) returns (found: bool)
      modifies this
      ensures tokens == Revoke(old(tokens), hash)
      ensures found <==> exists i :: 0 <= i < |old(tokens)| && old(tokens)[i].tokenHash == hash
    {
      var i := Find(tokens, hash);
      found := i < |tokens|;
      if found {
        tokens := tokens[i := tokens[i].(status := Revoked)];
      }
    }

    method RevokeUserRefreshTokens(userId: string)
      modifies this
      ensures tokens == RevokeUser(old(tokens), userId)
    {
      var i := 0;
      while i < |tokens|
        invariant i <= |tokens| == |old(tokens)|
        invariant tokens[..i] == RevokeUser(old(tokens), userId)[..i]
        invariant tokens[i..] == old(tokens)[i..]
      {
        assert tokens[i] == old(tokens)[i];
        if tokens[i].userId == userId && tokens[i].status == Active {
          tokens := tokens[i := tokens[i].(status := Revoked)];
        }
        assert tokens[..i + 1] == RevokeUser(old(tokens), userId)[..i + 1];
        i := i + 1;
      }
    }
  }

  // ----- Runs -----

  datatype Op =
    | DoCreate(userId: string, hash: string, expiresAt: int)
    | DoRotate(hash: string, newHash: string, expiresAt: int, now: int, cut: Cut)
    | DoUse(hash: string, newHash: string, expiresAt: int, now: int, cut: Cut)
    | DoRevoke(hash: string)
    | DoRevokeUser(userId: string)

  function Step(t: Table, op: Op): Table {
    match op
    case DoCreate(userId, hash, expiresAt) => Create(t, userId, hash, expiresAt).0
    case DoRotate(hash, newHash, expiresAt, now, cut) => Rotate(t, hash, newHash, expiresAt, now, cut).0
    case DoUse(hash, newHash, expiresAt, now, cut) => ValidateAndRotate(t, hash, newHash, expiresAt, now, cut).0
    case DoRevoke(hash) => Revoke(t, hash)
    case DoRevokeUser(userId) => RevokeUser(t, userId)
  }

  function Run(t: Table, ops: seq<Op>): Table {
    if ops == [] then t else Step(Run(t, ops[..|ops| - 1]), ops[|ops| - 1])
  }

  predicate SamePrevious(a: Token, b: Token) {
    a.previousTokenId.Some? && a.previousTokenId == b.previousTokenId
  }

  /** Links point backwards, within one user, at tokens no longer active, and no two at the same token. */
  ghost predicate Inv(t: Table) {
    && (forall i :: 0 <= i < |t| && t[i].previousTokenId.Some? ==>
          var p := t[i].previousTokenId.value;
          p < i && t[p].status != Active && t[p].userId == t[i].userId)
    && (forall i, j :: 0 <= i < |t| && 0 <= j < |t| && SamePrevious(t[i], t[j]) ==> i == j)
  }

  /** Rows keep their identity and may only leave the active status. */
  ghost predicate Extends(t: Table, t': Table) {
    && |t| <= |t'|
    && forall i :: 0 <= i < |t| ==>
      && t'[i].userId == t[i].userId && t'[i].tokenHash == t[i].tokenHash
      && t'[i].previousTokenId == t[i].previousTokenId
      && (t'[i].status == Active ==> t[i].status == Active)
  }

  lemma ExtendsInPlace(t: Table, t': Table)
    requires Inv(t) && Extends(t, t') && |t| == |t'|
    ensures Inv(t')
  {
  }

  lemma InsertedTip(t: Table, token: Token)
    requires Inv(t)
    requires token.previousTokenId.Some? ==>
      && var p := token.previousTokenId.value;
      && p < |t| && t[p].status != Active && t[p].userId == token.userId
      && forall i :: 0 <= i < |t| ==> t[i].previousTokenId != Some(p)
    ensures Inv(Insert(t, token).0) && Extends(t, Insert(t, token).0)
  {
  }

  lemma RotateKeeps(t: Table, i: nat, newHash: string, expiresAt: int, now: int, cut: Cut)
    requires Inv(t) && i <= |t|
    ensures var t' := RotateRow(t, i, newHash, expiresAt, now, cut).0;
      Inv(t') && Extends(t, t')
  {
    if i < |t| && t[i].status == Active {
      var retired := t[i := t[i].(status := Rotated)];
      ExtendsInPlace(t, retired);
      InsertedTip(retired, Token(t[i].userId, newHash, Some(i), Active, expiresAt, 0));
    }
  }

  /** Either the use changes nothing, or it is a rotation of the token with its usage counted. */
  lemma UseIsRotation(t: Table, hash: string, newHash: string, expiresAt: int, now: int, cut: Cut) returns (used: Table)
    ensures var i := Find(t, hash);
      var out := ValidateAndRotate(t, hash, newHash, expiresAt, now, cut);
      if i == |t| then out == (t, Err(NotFound)) && used == t
      else
        && used == t[i := t[i].(usageCount := t[i].usageCount + 1)]
        && (out == RotateRow(used, i, newHash, expiresAt, now, cut) || (out.0 == t && out.1.Err?))
  {
    used := t;
    var i := Find(t, hash);
    if i < |t| {
      used := t[i := t[i].(usageCount := t[i].usageCount + 1)];
      FindSame(t, used, hash);
    }
  }

  lemma UseKeeps(t: Table, hash: string, newHash: string, expiresAt: int, now: int, cut: Cut)
    requires Inv(t)
    ensures var t' := ValidateAndRotate(t, hash, newHash, expiresAt, now, cut).0;
      Inv(t') && Extends(t, t')
  {
    var used := UseIsRotation(t, hash, newHash, expiresAt, now, cut);
    var i := Find(t, hash);
    if i < |t| {
      ExtendsInPlace(t, used);
      RotateKeeps(used, i, newHash, expiresAt, now, cut);
      ExtendsTransitive(t, used, RotateRow(used, i, newHash, expiresAt, now, cut).0);
    }
  }

  lemma ExtendsTransitive(t: Table, t': Table, t'': Table)
    requires Extends(t, t') && Extends(t', t'')
    ensures Extends(t, t'')
  {
  }

  lemma StepKeeps(t: Table, op: Op)
    requires Inv(t)
    ensures Inv(Step(t, op)) && Extends(t, Step(t, op))
  {
    match op
    case DoCreate(userId, hash, expiresAt) =>
      InsertedTip(t, Token(userId, hash, None, Active, expiresAt, 0));
    case DoRotate(hash, newHash, expiresAt, now, cut) =>
      RotateKeeps(t, Find(t, hash), newHash, expiresAt, now, cut);
    case DoUse(hash, newHash, expiresAt, now, cut) =>
      UseKeeps(t, hash, newHash, expiresAt, now, cut);
    case DoRevoke(hash) =>
      ExtendsInPlace(t, Revoke(t, hash));
    case DoRevokeUser(userId) =>
      ExtendsInPlace(t, RevokeUser(t, userId));
  }

  /** From any table with the invariant, so no token ever becomes active again. */
  lemma {:induction false} RunKeeps(t: Table, ops: seq<Op>)
    requires Inv(t)
    ensures Inv(Run(t, ops)) && Extends(t, Run(t, ops))
  {
    if ops != [] {
      var front := Run(t, ops[..|ops| - 1]);
      RunKeeps(t, ops[..|ops| - 1]);
      StepKeeps(front, ops[|ops| - 1]);
      ExtendsTransitive(t, front, Step(front, ops[|ops| - 1]));
    }
  }

  // ----- Paths -----

  /** The tokens that led to token i by rotation, oldest first. */
  function Lineage(t: Table, i: nat): (path: seq<nat>)
    requires Inv(t) && i < |t|
    ensures |path| > 0 && path[|path| - 1] == i
    ensures forall k :: 0 <= k < |path| ==> path[k] < |t|
    ensures t[path[0]].previousTokenId == None
    ensures forall k :: 0 < k < |path| ==> t[path[k]].previousTokenId == Some(path[k - 1])
  {
    if t[i].previousTokenId == None then [i] else Lineage(t, t[i].previousTokenId.value) + [i]
  }

  /** Two lineages from the same origin are one path, cut at different places. */
  lemma {:induction false} OnePath(t: Table, i: nat, j: nat, n: nat)
    requires Inv(t) && i < |t| && j < |t|
    requires Lineage(t, i)[0] == Lineage(t, j)[0]
    requires n < |Lineage(t, i)| && n < |Lineage(t, j)|
    ensures Lineage(t, i)[n] == Lineage(t, j)[n]
  {
    if n > 0 {
      OnePath(t, i, j, n - 1);
    }
  }

  /**
   * In every run: the tokens of one origin form a single path, of which any two lineages are prefixes of
   * each other; at most one token of a path is active; and an active token is its tip.
   */
  lemma ActiveIsTip(ops: seq<Op>, i: nat, j: nat)
    requires i < |Run([], ops)| && j < |Run([], ops)|
    ensures Inv(Run([], ops))
    ensures var t := Run([], ops);
      var path, other := Lineage(t, i), Lineage(t, j);
      && (path[0] == other[0] ==> path <= other || other <= path)
      && (path[0] == other[0] && t[i].status == Active ==> other <= path)
      && (path[0] == other[0] && t[i].status == Active && t[j].status == Active ==> i == j)
      && t[j].userId == t[other[0]].userId
  {
    RunKeeps([], ops);
    var t := Run([], ops);
    var path, other := Lineage(t, i), Lineage(t, j);
    OneOwner(t, j, 0);
    if path[0] == other[0] {
      forall n | 0 <= n < Min(|path|, |other|)
        ensures path[n] == other[n]
      {
        OnePath(t, i, j, n);
      }
      if |path| < |other| {
        assert other[|path| - 1] == i && t[other[|path|]].previousTokenId == Some(i);
      } else if |other| < |path| {
        assert path[|other| - 1] == j && t[path[|other|]].previousTokenId == Some(j);
      }
    }
  }

  lemma {:induction false} OneOwner(t: Table, i: nat, n: nat)
    requires Inv(t) && i < |t| && n < |Lineage(t, i)|
    ensures t[Lineage(t, i)[n]].userId == t[i].userId
    decreases |Lineage(t, i)| - n
  {
    if n + 1 < |Lineage(t, i)| {
      OneOwner(t, i, n + 1);
    }
  }

  /** At every later point of a run, a token that has stopped being active is still not active. */
  lemma NeverActiveAgain(ops: seq<Op>, n: nat, i: nat)
    requires n <= |ops| && i < |Run([], ops[..n])| && Run([], ops[..n])[i].status != Active
    ensures i < |Run([], ops)| && Run([], ops)[i].status != Active
  {
    var t := Run([], ops[..n]);
    assert ops[..n] + ops[n..] == ops;
    RunConcat([], ops[..n], ops[n..]);
    RunKeeps([], ops[..n]);
    RunKeeps(t, ops[n..]);
    assert Extends(t, Run([], ops));
  }

  lemma {:induction false} RunConcat(t: Table, a: seq<Op>, b: seq<Op>)
    ensures Run(t, a + b) == Run(Run(t, a), b)
  {
    if b == [] {
      assert a + b == a;
    } else {
      var n := |b| - 1;
      RunConcat(t, a, b[..n]);
      assert (a + b)[..|a + b| - 1] == a + b[..n] && (a + b)[|a + b| - 1] == b[n];
    }
  }

  // ----- How many tokens a user has -----

  function ActiveCount(t: Table, userId: string): nat {
    if t == [] then 0
    else ActiveCount(t[..|t| - 1], userId) + if t[|t| - 1].userId == userId && t[|t| - 1].status == Active then 1 else 0
  }

  lemma {:induction false} CountUpdate(t: Table, i: nat, token: Token, userId: string)
    requires i < |t|
    ensures ActiveCount(t[i := token], userId)
      == ActiveCount(t, userId) - (if t[i].userId == userId && t[i].status == Active then 1 else 0)
         + (if token.userId == userId && token.status == Active then 1 else 0)
  {
    var n := |t| - 1;
    if i < n {
      CountUpdate(t[..n], i, token, userId);
      assert t[i := token][..n] == t[..n][i := token];
    } else {
      assert t[i := token][..n] == t[..n];
    }
  }

  /** A completed rotation keeps every user's number of active tokens; a cut one loses at most one. */
  lemma RotationConserves(t: Table, i: nat, newHash: string, expiresAt: int, now: int, cut: Cut, userId: string)
    requires i <= |t|
    ensures var (t', r) := RotateRow(t, i, newHash, expiresAt, now, cut);
      && (r.Ok? ==> ActiveCount(t', userId) == ActiveCount(t, userId))
      && (r.Err? ==> ActiveCount(t, userId) - 1 <= ActiveCount(t', userId) <= ActiveCount(t, userId))
      && (r in {Err(NotFound), Err(NotActive), Err(TokenExpired)} ==> t' == t)
  {
    if i < |t| && t[i].status == Active {
      var retired := t[i := t[i].(status := Rotated)];
      CountUpdate(t, i, retired[i], userId);
      var token := Token(t[i].userId, newHash, Some(i), Active, expiresAt, 0);
      assert (retired + [token])[..|retired|] == retired;
    }
  }

  lemma UseConserves(t: Table, hash: string, newHash: string, expiresAt: int, now: int, cut: Cut, userId: string)
    ensures var (t', r) := ValidateAndRotate(t, hash, newHash, expiresAt, now, cut);
      && (r.Ok? ==> ActiveCount(t', userId) == ActiveCount(t, userId))
      && (r.Err? ==> ActiveCount(t, userId) - 1 <= ActiveCount(t', userId) <= ActiveCount(t, userId))
  {
    var used := UseIsRotation(t, hash, newHash, expiresAt, now, cut);
    var i := Find(t, hash);
    if i < |t| {
      CountUpdate(t, i, used[i], userId);
      RotationConserves(used, i, newHash, expiresAt, now, cut, userId);
    }
  }

  lemma {:induction false} FindSame(t: Table, t': Table, hash: string)
    requires |t| == |t'| && forall i :: 0 <= i < |t| ==> t[i].tokenHash == t'[i].tokenHash
    ensures Find(t, hash) == Find(t', hash)
  {
    if t != [] && t[0].tokenHash != hash {
      FindSame(t[1..], t'[1..], hash);
    }
  }

  // ----- Which tokens rotate -----

  /** The row of the hash, if any, is active and has not expired. */
  predicate Usable(t: Table, hash: string, now: int) {
    var i := Find(t, hash);
    i < |t| && t[i].status == Active && now <= t[i].expiresAt
  }

  /** Why a token that is not usable is refused: there is none, it is not active, or it has expired, in that order. */
  predicate RefusedFor(t: Table, hash: string, now: int, e: Error) {
    var i := Find(t, hash);
    match e
    case NotFound => forall k :: 0 <= k < |t| ==> t[k].tokenHash != hash
    case NotActive => i < |t| && t[i].status != Active
    case TokenExpired => i < |t| && t[i].status == Active && t[i].expiresAt < now
    case _ => false
  }

  /**
   * Uninterrupted and with a new hash, a rotation succeeds exactly if the token is usable, and else changes nothing and
   * says why. It retires the token and appends its active successor for the same user with the new hash and expiry.
   */
  lemma RotateDecides(t: Table, hash: string, newHash: string, expiresAt: int, now: int)
    requires forall k :: 0 <= k < |t| ==> t[k].tokenHash != newHash
    ensures var (t', r) := Rotate(t, hash, newHash, expiresAt, now, Nowhere);
      var i := Find(t, hash);
      && (r.Ok? <==> Usable(t, hash, now))
      && (r.Err? ==> t' == t && RefusedFor(t, hash, now, r.error))
      && (r.Ok? ==> r.value == |t| && t' == t[i := t[i].(status := Rotated)]
                                        + [Token(t[i].userId, newHash, Some(i), Active, expiresAt, 0)])
  {
  }

  lemma RowRotates(t: Table, i: nat, newHash: string, expiresAt: int, now: int)
    requires i < |t| && t[i].status == Active && now <= t[i].expiresAt
    requires forall k :: 0 <= k < |t| ==> t[k].tokenHash != newHash
    ensures RotateRow(t, i, newHash, expiresAt, now, Nowhere)
      == (t[i := t[i].(status := Rotated)] + [Token(t[i].userId, newHash, Some(i), Active, expiresAt, 0)], Ok(|t|))
  {
    FindSame(t, t[i := t[i].(status := Rotated)], newHash);
  }

  /** A use that gets as far is the rotation of its row with the use counted. */
  lemma UseRotatesRow(t: Table, hash: string, newHash: string, expiresAt: int, now: int, cut: Cut, i: nat, used: Table)
    requires i == Find(t, hash) && Usable(t, hash, now) && cut != BeforeUse
    requires used == t[i := t[i].(usageCount := t[i].usageCount + 1)]
    ensures ValidateAndRotate(t, hash, newHash, expiresAt, now, cut) == RotateRow(used, i, newHash, expiresAt, now, cut)
  {
    FindSame(t, used, hash);
  }

  lemma UsableRotates(t: Table, hash: string, newHash: string, expiresAt: int, now: int, i: nat)
    requires i == Find(t, hash) && Usable(t, hash, now)
    requires forall k :: 0 <= k < |t| ==> t[k].tokenHash != newHash
    ensures ValidateAndRotate(t, hash, newHash, expiresAt, now, Nowhere)
      == (t[i := t[i].(status := Rotated, usageCount := t[i].usageCount + 1)]
            + [Token(t[i].userId, newHash, Some(i), Active, expiresAt, 0)], Ok(|t|))
  {
    var used := t[i := t[i].(usageCount := t[i].usageCount + 1)];
    UseRotatesRow(t, hash, newHash, expiresAt, now, Nowhere, i, used);
    RowRotates(used, i, newHash, expiresAt, now);
    assert used[i := used[i].(status := Rotated)]
        == t[i := t[i].(status := Rotated, usageCount := t[i].usageCount + 1)];
  }

  /** Using a token decides the same, and also counts the use. */
  lemma UseDecides(t: Table, hash: string, newHash: string, expiresAt: int, now: int)
    requires forall k :: 0 <= k < |t| ==> t[k].tokenHash != newHash
    ensures var (t', r) := ValidateAndRotate(t, hash, newHash, expiresAt, now, Nowhere);
      var i := Find(t, hash);
      && (r.Ok? <==> Usable(t, hash, now))
      && (r.Err? ==> t' == t && RefusedFor(t, hash, now, r.error))
      && (r.Ok? ==> r.value == |t| && t' == t[i := t[i].(status := Rotated, usageCount := t[i].usageCount + 1)]
                                        + [Token(t[i].userId, newHash, Some(i), Active, expiresAt, 0)])
  {
    if Usable(t, hash, now) {
      UsableRotates(t, hash, newHash, expiresAt, now, Find(t, hash));
    }
  }

  /** To a hash in use, or cut before the insert, the token is retired without a successor: the session is lost. */
  lemma RotationCanLose(t: Table, hash: string, newHash: string, expiresAt: int, now: int, cut: Cut)
    requires Usable(t, hash, now) && (cut == BeforeInsert || (cut == Nowhere && Find(t, newHash) < |t|))
    ensures var (t', r) := Rotate(t, hash, newHash, expiresAt, now, cut);
      && r == Err(if cut == BeforeInsert then Interrupted else Duplicate)
      && t' == t[Find(t, hash) := t[Find(t, hash)].(status := Rotated)]
  {
    var i := Find(t, hash);
    FindSame(t, t[i := t[i].(status := Rotated)], newHash);
  }

  /** Cut before it retires the token, a rotation has changed nothing. */
  lemma CutBeforeRetiring(t: Table, hash: string, newHash: string, expiresAt: int, now: int)
    requires Usable(t, hash, now)
    ensures Rotate(t, hash, newHash, expiresAt, now, BeforeRetire) == (t, Err(Interrupted))
    ensures ValidateAndRotate(t, hash, newHash, expiresAt, now, BeforeUse) == (t, Err(Interrupted))
  {
  }

  /** A use cut there has counted the use and nothing more. */
  lemma UseCutBeforeRetiring(t: Table, hash: string, newHash: string, expiresAt: int, now: int, i: nat)
    requires i == Find(t, hash) && Usable(t, hash, now)
    ensures ValidateAndRotate(t, hash, newHash, expiresAt, now, BeforeRetire)
      == (t[i := t[i].(usageCount := t[i].usageCount + 1)], Err(Interrupted))
  {
    UseRotatesRow(t, hash, newHash, expiresAt, now, BeforeRetire, i, t[i := t[i].(usageCount := t[i].usageCount + 1)]);
  }

  /** A new token is appended, active and without predecessor, exactly if its hash is new. */
  lemma CreateDecides(t: Table, userId: string, hash: string, expiresAt: int)
    ensures var (t', r) := Create(t, userId, hash, expiresAt);
      if exists k :: 0 <= k < |t| && t[k].tokenHash == hash then t' == t && r == Err(Duplicate)
      else t' == t + [Token(userId, hash, None, Active, expiresAt, 0)] && r == Ok(|t|)
  {
  }

  // ----- Revocation -----

  /** Revoking a user leaves the user without active tokens, and every other token as it was. */
  lemma {:induction false} RevokeUserDecides(t: Table, userId: string, other: string)
    ensures ActiveCount(RevokeUser(t, userId), userId) == 0
    ensures other != userId ==> ActiveCount(RevokeUser(t, userId), other) == ActiveCount(t, other)
    ensures forall i :: 0 <= i < |t| && !(t[i].userId == userId && t[i].status == Active) ==>
      RevokeUser(t, userId)[i] == t[i]
    ensures forall i :: 0 <= i < |t| && t[i].userId == userId && t[i].status == Active ==>
      RevokeUser(t, userId)[i] == t[i].(status := Revoked)
  {
    if t != [] {
      var n := |t| - 1;
      RevokeUserDecides(t[..n], userId, other);
      assert RevokeUser(t, userId)[..n] == RevokeUser(t[..n], userId);
    }
  }

  ghost predicate HashesUnique(t: Table) {
    forall i, j :: 0 <= i < j < |t| ==> t[i].tokenHash != t[j].tokenHash
  }

  ghost predicate KeepsHashes(t: Table, t': Table) {
    |t| <= |t'| && forall i :: 0 <= i < |t| ==> t'[i].tokenHash == t[i].tokenHash
  }

  lemma RowHashes(t: Table, i: nat, newHash: string, expiresAt: int, now: int, cut: Cut)
    requires HashesUnique(t) && i <= |t|
    ensures var t' := RotateRow(t, i, newHash, expiresAt, now, cut).0;
      HashesUnique(t') && KeepsHashes(t, t')
  {
    if i < |t| {
      var retired := t[i := t[i].(status := Rotated)];
      FindSame(t, retired, newHash);
    }
  }

  lemma StepHashes(t: Table, op: Op)
    requires HashesUnique(t)
    ensures HashesUnique(Step(t, op)) && KeepsHashes(t, Step(t, op))
  {
    match op
    case DoRotate(hash, newHash, expiresAt, now, cut) =>
      RowHashes(t, Find(t, hash), newHash, expiresAt, now, cut);
    case DoUse(hash, newHash, expiresAt, now, cut) =>
      var used := UseIsRotation(t, hash, newHash, expiresAt, now, cut);
      RowHashes(used, Find(t, hash), newHash, expiresAt, now, cut);
    case _ =>
  }

  lemma {:induction false} RunHashes(ops: seq<Op>)
    ensures HashesUnique(Run([], ops))
  {
    if ops != [] {
      RunHashes(ops[..|ops| - 1]);
      StepHashes(Run([], ops[..|ops| - 1]), ops[|ops| - 1]);
    }
  }

  lemma {:induction false} RunKeepsHashes(ops: seq<Op>, n: nat)
    requires n <= |ops|
    ensures KeepsHashes(Run([], ops[..n]), Run([], ops))
  {
    if n == |ops| {
      assert ops[..n] == ops;
    } else {
      var m := |ops| - 1;
      assert ops[..m][..n] == ops[..n];
      RunKeepsHashes(ops[..m], n);
      RunHashes(ops[..m]);
      StepHashes(Run([], ops[..m]), ops[m]);
    }
  }

  lemma FindUnique(t: Table, i: nat)
    requires HashesUnique(t) && i < |t|
    ensures Find(t, t[i].tokenHash) == i
  {
  }

  /** The step revokes token i: by its hash, or with all active tokens of its user. */
  predicate Revokes(t: Table, op: Op, i: nat)
    requires i < |t|
  {
    op == DoRevoke(t[i].tokenHash) || (op == DoRevokeUser(t[i].userId) && t[i].status == Active)
  }

  /** In every run, a token that has been revoked never works again: every later rotation or use of it is refused. */
  lemma RevokedForGood(ops: seq<Op>, n: nat, i: nat, newHash: string, expiresAt: int, now: int, cut: Cut)
    requires n < |ops| && i < |Run([], ops[..n])| && Revokes(Run([], ops[..n]), ops[n], i)
    ensures var t, hash := Run([], ops), Run([], ops[..n])[i].tokenHash;
      && i < |Run([], ops[..n + 1])| && Run([], ops[..n + 1])[i].status == Revoked
      && Rotate(t, hash, newHash, expiresAt, now, cut) == (t, Err(NotActive))
      && ValidateAndRotate(t, hash, newHash, expiresAt, now, cut) == (t, Err(NotActive))
  {
    var before := Run([], ops[..n]);
    assert ops[..n + 1][..n] == ops[..n];
    RunHashes(ops[..n]);
    FindUnique(before, i);
    var after := Run([], ops[..n + 1]);
    assert after == Step(before, ops[n]) && after[i].status == Revoked;
    NeverActiveAgain(ops, n + 1, i);
    RunKeepsHashes(ops, n);
    RunHashes(ops);
    FindUnique(Run([], ops), i);
  }
}
