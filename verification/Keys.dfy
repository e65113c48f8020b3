/**
The stable text of a ledger account's identity (domain/src/balance.rs), printed and read back, and the
identifiers it is made of (balance.rs, scopes.rs).
 */
module Keys {
  import opened Base
  import opened Ledger
  import opened Text

  const MAIN: ScopeId := "main"

  predicate Alphanumeric(c: char) {
    '0' <= c <= '9' || 'a' <= c <= 'z' || 'A' <= c <= 'Z'
  }

  predicate IsServiceId(s: string) {
    1 <= |s| <= 64 && forall i :: 0 <= i < |s| ==> Alphanumeric(s[i]) || s[i] == '-' || s[i] == '_'
  }

  predicate IsScopeId(s: string) {
    && 1 <= |s| <= 32 && 'a' <= s[0] <= 'z'
    && forall i :: 0 <= i < |s| ==> 'a' <= s[i] <= 'z' || '0' <= s[i] <= '9' || s[i] == '_'
  }

  predicate IsLabel(s: string) {
    && 1 <= |s| <= 64
    && forall i :: 0 <= i < |s| ==> 'a' <= s[i] <= 'z' || '0' <= s[i] <= '9' || s[i] == '_' || s[i] == ':' || s[i] == '.' || s[i] == '-'
  }

  /** One of banking's own labels. */
  predicate IsReserved(name: Label) {
    name == "fee" || name == "treasury"
  }

  const LOWER := "abcdefghijklmnopqrstuvwxyz"
  const UPPER := "ABCDEFGHIJKLMNOPQRSTUVWXYZ"
  const DECIMAL := "0123456789"

  /** Made of the characters of an alphabet. */
  predicate Of(s: string, alphabet: string) {
    forall i :: 0 <= i < |s| ==> s[i] in alphabet
  }

  lemma LowerLetter(c: char)
    ensures c in LOWER <==> 'a' <= c <= 'z'
  {
    if 'a' <= c <= 'z' {
      assert LOWER[c as int - 'a' as int] == c;
    }
  }

  lemma UpperLetter(c: char)
    ensures c in UPPER <==> 'A' <= c <= 'Z'
  {
    if 'A' <= c <= 'Z' {
      assert UPPER[c as int - 'A' as int] == c;
    }
  }

  lemma DecimalDigit(c: char)
    ensures c in DECIMAL <==> '0' <= c <= '9'
  {
    if '0' <= c <= '9' {
      assert DECIMAL[c as int - '0' as int] == c;
    }
  }

  lemma Letters(c: char)
    ensures c in LOWER <==> 'a' <= c <= 'z'
    ensures c in UPPER <==> 'A' <= c <= 'Z'
    ensures c in DECIMAL <==> '0' <= c <= '9'
  {
    LowerLetter(c);
    UpperLetter(c);
    DecimalDigit(c);
  }

  /** The three identifiers as they are spelled: of so many characters out of so many. */
  lemma ServiceIdIff(s: string)
    ensures IsServiceId(s) <==> 1 <= |s| <= 64 && Of(s, LOWER + UPPER + DECIMAL + "-_")
  {
    forall i | 0 <= i < |s| ensures s[i] in LOWER + UPPER + DECIMAL + "-_" <==> Alphanumeric(s[i]) || s[i] == '-' || s[i] == '_' {
      Letters(s[i]);
    }
  }

  lemma ScopeIdIff(s: string)
    ensures IsScopeId(s) <==> 1 <= |s| <= 32 && s[0] in LOWER && Of(s, LOWER + DECIMAL + "_")
  {
    forall i | 0 <= i < |s|
      ensures s[i] in LOWER + DECIMAL + "_" <==> 'a' <= s[i] <= 'z' || '0' <= s[i] <= '9' || s[i] == '_'
      ensures s[i] in LOWER <==> 'a' <= s[i] <= 'z'
    {
      Letters(s[i]);
    }
  }

  lemma LabelIff(s: string)
    ensures IsLabel(s) <==> 1 <= |s| <= 64 && Of(s, LOWER + DECIMAL + "_:.-")
  {
    forall i | 0 <= i < |s|
      ensures s[i] in LOWER + DECIMAL + "_:.-" <==>
                'a' <= s[i] <= 'z' || '0' <= s[i] <= '9' || s[i] == '_' || s[i] == ':' || s[i] == '.' || s[i] == '-'
    {
      Letters(s[i]);
    }
  }

  function Checked<T>(ok: bool, value: T): Result<T, DomainError> {
    if ok then Ok(value) else Err(Validation)
  }

  function ParseServiceId(raw: string): Result<ServiceId, DomainError> {
    Checked(IsServiceId(Trim(raw)), Trim(raw))
  }

  function ParseScopeId(raw: string): Result<ScopeId, DomainError> {
    Checked(IsScopeId(raw), raw)
  }

  function ParseLabel(raw: string): Result<Label, DomainError> {
    Checked(IsLabel(raw), raw)
  }

  function ParseUserId(raw: string): Result<UserId, DomainError> {
    match ParseUuid(raw)
    case Some(user) => Ok(user)
    case None => Err(Validation)
  }

  function NetworkText(n: Network): string {
    match n
    case Bep20 => "bep20"
    case Trc20 => "trc20"
    case Ton => "ton"
    case Polygon => "polygon"
  }

  function ParseNetwork(raw: string): Result<Network, DomainError> {
    if raw == "bep20" then Ok(Bep20)
    else if raw == "trc20" then Ok(Trc20)
    else if raw == "ton" then Ok(Ton)
    else if raw == "polygon" then Ok(Polygon)
    else Err(Validation)
  }

  // ----- the key -----

  datatype KeyKind =
    | WalletKey | UserKey | ServiceKey | SharesKey | OutstandingKey | FeeKey | BookSharesKey | BookCashKey
    | ScopeClaimKey | ScopeAccountKey

  function PrefixText(p: KeyKind): string {
    match p
    case WalletKey => "wallet"
    case UserKey => "user"
    case ServiceKey => "service"
    case SharesKey => "shares"
    case OutstandingKey => "shares_outstanding"
    case FeeKey => "shares_fee"
    case BookSharesKey => "book_shares"
    case BookCashKey => "book_cash"
    case ScopeClaimKey => "scope_claim"
    case ScopeAccountKey => "scope_account"
  }

  function ParsePrefix(raw: string): Option<KeyKind> {
    if raw == "wallet" then Some(WalletKey)
    else if raw == "user" then Some(UserKey)
    else if raw == "service" then Some(ServiceKey)
    else if raw == "shares" then Some(SharesKey)
    else if raw == "shares_outstanding" then Some(OutstandingKey)
    else if raw == "shares_fee" then Some(FeeKey)
    else if raw == "book_shares" then Some(BookSharesKey)
    else if raw == "book_cash" then Some(BookCashKey)
    else if raw == "scope_claim" then Some(ScopeClaimKey)
    else if raw == "scope_account" then Some(ScopeAccountKey)
    else None
  }

  function Joined(before: string, after: string): string {
    before + [':'] + after
  }

  /** The kind of a key and what it names; `None` for the three accounts there is one of each. */
  function Parts(key: AccountKey): Option<(KeyKind, string)> {
    match key
    case CryptoWallet(network) => Some((WalletKey, NetworkText(network)))
    case UserClaim(user) => Some((UserKey, UuidText(user)))
    case ServiceClaim(service) => Some((ServiceKey, service))
    case UserShares(service, user) => Some((SharesKey, Joined(service, UuidText(user))))
    case SharesOutstanding(service) => Some((OutstandingKey, service))
    case FeeShares(service) => Some((FeeKey, service))
    case BookShares(service, user) => Some((BookSharesKey, Joined(service, UuidText(user))))
    case BookCash(user) => Some((BookCashKey, UuidText(user)))
    case ScopeClaim(user, scope) => Some((ScopeClaimKey, Joined(scope, UuidText(user))))
    case ScopeAccount(scope, name) => Some((ScopeAccountKey, Joined(scope, name)))
    case WithdrawalClearing | BankCustody | HoldClearing => None
  }

  function LogicalKey(key: AccountKey): string {
    match Parts(key)
    case Some((prefix, rest)) => Joined(PrefixText(prefix), rest)
    case None => if key == WithdrawalClearing then "clearing" else if key == BankCustody then "bank" else "hold_clearing"
  }

  function ServiceAndUser(rest: string): Result<(ServiceId, UserId), DomainError> {
    match SplitOnce(rest, ':')
    case None => Err(Validation)
    case Some((s, u)) =>
      var service :- ParseServiceId(s);
      var user :- ParseUserId(u);
      Ok((service, user))
  }

  function ParseScopeClaim(rest: string): Result<AccountKey, DomainError> {
    match SplitOnce(rest, ':')
    case None => Err(Validation)
    case Some((s, u)) =>
      var scope :- ParseScopeId(s);
      if scope == MAIN then Err(Validation)
      else
        var user :- ParseUserId(u);
        Ok(ScopeClaim(user, scope))
  }

  function ParseScopeAccount(rest: string): Result<AccountKey, DomainError> {
    match SplitOnce(rest, ':')
    case None => Err(Validation)
    case Some((s, l)) =>
      var scope :- ParseScopeId(s);
      var name :- ParseLabel(l);
      Ok(ScopeAccount(scope, name))
  }

  function ParseRest(prefix: KeyKind, rest: string): Result<AccountKey, DomainError> {
    match prefix
    case WalletKey => var network :- ParseNetwork(rest); Ok(CryptoWallet(network))
    case UserKey => var user :- ParseUserId(rest); Ok(UserClaim(user))
    case ServiceKey => var service :- ParseServiceId(rest); Ok(ServiceClaim(service))
    case SharesKey => var both :- ServiceAndUser(rest); Ok(UserShares(both.0, both.1))
    case OutstandingKey => var service :- ParseServiceId(rest); Ok(SharesOutstanding(service))
    case FeeKey => var service :- ParseServiceId(rest); Ok(FeeShares(service))
    case BookSharesKey => var both :- ServiceAndUser(rest); Ok(BookShares(both.0, both.1))
    case BookCashKey => var user :- ParseUserId(rest); Ok(BookCash(user))
    case ScopeClaimKey => ParseScopeClaim(rest)
    case ScopeAccountKey => ParseScopeAccount(rest)
  }

  function ParseLogicalKey(raw: string): Result<AccountKey, DomainError> {
    if raw == "clearing" then Ok(WithdrawalClearing)
    else if raw == "hold_clearing" then Ok(HoldClearing)
    else if raw == "bank" then Ok(BankCustody)
    else
      match SplitOnce(raw, ':')
      case None => Err(Validation)
      case Some((before, rest)) =>
        match ParsePrefix(before)
        case None => Err(Validation)
        case Some(prefix) => ParseRest(prefix, rest)
  }

  /** The keys the constructors can build: well-formed identifiers, and no scope claim on `main`. */
  predicate Buildable(key: AccountKey) {
    match key
    case ServiceClaim(service) => IsServiceId(service)
    case UserShares(service, _) => IsServiceId(service)
    case SharesOutstanding(service) => IsServiceId(service)
    case FeeShares(service) => IsServiceId(service)
    case BookShares(service, _) => IsServiceId(service)
    case ScopeClaim(_, scope) => IsScopeId(scope) && scope != MAIN
    case ScopeAccount(scope, name) => IsScopeId(scope) && IsLabel(name)
    case _ => true
  }

  // ----- there and back -----

  lemma PrefixRoundTrip(p: KeyKind)
    ensures ParsePrefix(PrefixText(p)) == Some(p)
    ensures ':' !in PrefixText(p)
  {
    assert PrefixText(WalletKey)[0] == 'w' && PrefixText(SharesKey)[0] == 's';
    assert PrefixText(BookSharesKey)[0] == 'b' && PrefixText(ScopeClaimKey)[0] == 's';
  }

  lemma PrefixIsItself(raw: string)
    requires ParsePrefix(raw).Some?
    ensures PrefixText(ParsePrefix(raw).value) == raw
  {
  }

  lemma NetworkRoundTrip(n: Network)
    ensures ParseNetwork(NetworkText(n)) == Ok(n)
  {
    assert NetworkText(Bep20)[0] == 'b' && NetworkText(Trc20)[0] == 't';
  }

  lemma JoinedSplits(before: string, after: string)
    requires ':' !in before
    ensures SplitOnce(Joined(before, after), ':') == Some((before, after))
  {
    SplitsAtTheFirst(before, ':', after);
  }

  lemma PlainKeysHaveNoColon()
    ensures ':' !in "clearing" && ':' !in "hold_clearing" && ':' !in "bank"
  {
  }

  lemma JoinedIsParsed(p: KeyKind, rest: string)
    ensures ParseLogicalKey(Joined(PrefixText(p), rest)) == ParseRest(p, rest)
  {
    PrefixRoundTrip(p);
    JoinedSplits(PrefixText(p), rest);
    PlainKeysHaveNoColon();
    var raw := Joined(PrefixText(p), rest);
    assert raw[|PrefixText(p)|] == ':';
    assert ':' in raw;
  }

  lemma ServiceIdIsSolid(s: string)
    requires IsServiceId(s)
    ensures ParseServiceId(s) == Ok(s) && ':' !in s
  {
    TrimKeepsSolid(s);
  }

  lemma UserIsRead(user: UserId)
    ensures ParseUserId(UuidText(user)) == Ok(user)
  {
    UuidRoundTrip(user);
  }

  lemma ServiceAndUserRead(service: ServiceId, user: UserId)
    requires IsServiceId(service)
    ensures ServiceAndUser(Joined(service, UuidText(user))) == Ok((service, user))
  {
    ServiceIdIsSolid(service);
    UserIsRead(user);
    JoinedSplits(service, UuidText(user));
  }

  lemma ScopePartsRead(scope: ScopeId, user: UserId, name: Label)
    requires IsScopeId(scope)
    ensures scope != MAIN ==> ParseScopeClaim(Joined(scope, UuidText(user))) == Ok(ScopeClaim(user, scope))
    ensures IsLabel(name) ==> ParseScopeAccount(Joined(scope, name)) == Ok(ScopeAccount(scope, name))
  {
    JoinedSplits(scope, UuidText(user));
    JoinedSplits(scope, name);
    UserIsRead(user);
  }

  lemma UserRest(user: UserId)
    ensures ParseRest(UserKey, UuidText(user)) == Ok(UserClaim(user))
    ensures ParseRest(BookCashKey, UuidText(user)) == Ok(BookCash(user))
  {
    UserIsRead(user);
  }

  lemma ServiceRest(service: ServiceId)
    requires IsServiceId(service)
    ensures ParseRest(ServiceKey, service) == Ok(ServiceClaim(service))
    ensures ParseRest(OutstandingKey, service) == Ok(SharesOutstanding(service))
    ensures ParseRest(FeeKey, service) == Ok(FeeShares(service))
  {
    ServiceIdIsSolid(service);
  }

  lemma HoldingRest(service: ServiceId, user: UserId)
    requires IsServiceId(service)
    ensures ParseRest(SharesKey, Joined(service, UuidText(user))) == Ok(UserShares(service, user))
    ensures ParseRest(BookSharesKey, Joined(service, UuidText(user))) == Ok(BookShares(service, user))
  {
    ServiceAndUserRead(service, user);
  }

  lemma PartsRoundTrip(key: AccountKey)
    requires Buildable(key) && Parts(key).Some?
    ensures ParseRest(Parts(key).value.0, Parts(key).value.1) == Ok(key)
  {
    if key.CryptoWallet? {
      NetworkRoundTrip(key.network);
    } else if key.UserClaim? || key.BookCash? {
      UserRest(key.user);
    } else if key.UserShares? || key.BookShares? {
      HoldingRest(key.service, key.user);
    } else if key.ScopeClaim? {
      ScopePartsRead(key.scope, key.user, []);
    } else if key.ScopeAccount? {
      ScopePartsRead(key.scope, 0, key.name);
    } else {
      ServiceRest(key.service);
    }
  }

  /** Reading back a key is the identity, for every key that can be built: labels may hold ':'. */
  lemma KeyRoundTrip(key: AccountKey)
    requires Buildable(key)
    ensures ParseLogicalKey(LogicalKey(key)) == Ok(key)
  {
    if Parts(key).Some? {
      PartsRoundTrip(key);
      JoinedIsParsed(Parts(key).value.0, Parts(key).value.1);
    }
  }

  /** So no two accounts share a key. */
  lemma KeysAreInjective(x: AccountKey, y: AccountKey)
    requires Buildable(x) && Buildable(y) && LogicalKey(x) == LogicalKey(y)
    ensures x == y
  {
    KeyRoundTrip(x);
    KeyRoundTrip(y);
  }

  // ----- what else is read -----

  predicate Solid(s: string) {
    forall i :: 0 <= i < |s| ==> !IsWhitespace(s[i])
  }

  /** The part of a key that names a user, if its kind has one. */
  function UserPart(prefix: KeyKind, rest: string): Option<string> {
    match prefix
    case UserKey | BookCashKey => Some(rest)
    case SharesKey | BookSharesKey | ScopeClaimKey => Some(SplitOnce(rest, ':').GetOr(([], [])).1)
    case _ => None
  }

  /** A user, where there is one, in the length and the case it is printed in. */
  predicate PlainUser(user: Option<string>) {
    user.Some? ==> |user.value| == 36 && LowerCase(user.value)
  }

  lemma JoinedOnce(before: string, after: string, before': string, after': string)
    requires ':' !in before && ':' !in before'
    ensures Joined(before, after) == Joined(before', after') <==> before == before' && after == after'
  {
    JoinedSplits(before, after);
    JoinedSplits(before', after');
  }

  lemma SolidJoin(before: string, after: string)
    ensures Solid(Joined(before, after)) <==> Solid(before) && Solid(after)
  {
    var s := Joined(before, after);
    if Solid(s) {
      forall i | 0 <= i < |before| ensures !IsWhitespace(before[i]) {
        assert s[i] == before[i];
      }
      forall i | 0 <= i < |after| ensures !IsWhitespace(after[i]) {
        assert s[|before| + 1 + i] == after[i];
      }
    }
  }

  lemma ServiceRead(s: string)
    requires ParseServiceId(s).Ok?
    ensures ParseServiceId(s).value == s <==> Solid(s)
    ensures IsServiceId(ParseServiceId(s).value) && ':' !in ParseServiceId(s).value
  {
    if Solid(s) {
      TrimKeepsSolid(s);
    }
  }

  lemma UserRead(s: string)
    requires ParseUserId(s).Ok?
    ensures UuidText(ParseUserId(s).value) == s <==> |s| == 36 && LowerCase(s)
    ensures |s| == 36 ==> Solid(s)
  {
    ParsedUuid(s);
  }

  lemma HoldingRead(rest: string)
    requires ServiceAndUser(rest).Ok?
    ensures var (service, user) := ServiceAndUser(rest).value;
            Joined(service, UuidText(user)) == rest <==> Solid(rest) && PlainUser(UserPart(SharesKey, rest))
  {
    SplitMeans(rest, ':');
    var (s, u) := SplitOnce(rest, ':').value;
    var (service, user) := ServiceAndUser(rest).value;
    ServiceRead(s);
    UserRead(u);
    SolidJoin(s, u);
    JoinedOnce(service, UuidText(user), s, u);
  }

  lemma ScopeIsSolid(s: string)
    requires IsScopeId(s) || IsLabel(s)
    ensures Solid(s)
  {
  }

  lemma ScopeClaimParts(rest: string) returns (s: string, u: string)
    requires ParseScopeClaim(rest).Ok?
    ensures rest == Joined(s, u) && ':' !in s && IsScopeId(s) && UserPart(ScopeClaimKey, rest) == Some(u)
    ensures ParseUserId(u).Ok? && ParseScopeClaim(rest).value == ScopeClaim(ParseUserId(u).value, s)
  {
    SplitMeans(rest, ':');
    s, u := SplitOnce(rest, ':').value.0, SplitOnce(rest, ':').value.1;
  }

  lemma ScopeClaimRead(rest: string)
    requires ParseScopeClaim(rest).Ok?
    ensures var key := ParseScopeClaim(rest).value;
            && key.ScopeClaim?
            && (Joined(key.scope, UuidText(key.user)) == rest <==> Solid(rest) && PlainUser(UserPart(ScopeClaimKey, rest)))
  {
    var s, u := ScopeClaimParts(rest);
    ScopeIsSolid(s);
    UserRead(u);
    SolidJoin(s, u);
    JoinedOnce(s, UuidText(ParseUserId(u).value), s, u);
  }

  lemma ScopeAccountRead(rest: string)
    requires ParseScopeAccount(rest).Ok?
    ensures var key := ParseScopeAccount(rest).value;
            key.ScopeAccount? && Joined(key.scope, key.name) == rest && Solid(rest)
  {
    SplitMeans(rest, ':');
    var (s, l) := SplitOnce(rest, ':').value;
    ScopeIsSolid(s);
    ScopeIsSolid(l);
    SolidJoin(s, l);
  }

  lemma NetworkRead(rest: string)
    requires ParseNetwork(rest).Ok?
    ensures NetworkText(ParseNetwork(rest).value) == rest && Solid(rest)
  {
  }

  /** What is read of a kind's rest is printed as that rest exactly when it is solid and in lower case. */
  ghost predicate RestAgrees(prefix: KeyKind, rest: string)
    requires ParseRest(prefix, rest).Ok?
  {
    var parts := Parts(ParseRest(prefix, rest).value);
    && parts.Some? && parts.value.0 == prefix
    && (parts.value.1 == rest <==> Solid(rest) && PlainUser(UserPart(prefix, rest)))
  }

  lemma UserRestRead(prefix: KeyKind, rest: string)
    requires prefix in {UserKey, BookCashKey} && ParseRest(prefix, rest).Ok?
    ensures RestAgrees(prefix, rest)
  {
    UserRead(rest);
  }

  lemma HoldingRestRead(prefix: KeyKind, rest: string)
    requires prefix in {SharesKey, BookSharesKey} && ParseRest(prefix, rest).Ok?
    ensures RestAgrees(prefix, rest)
  {
    HoldingRead(rest);
  }

  lemma ServiceRestRead(prefix: KeyKind, rest: string)
    requires prefix in {ServiceKey, OutstandingKey, FeeKey} && ParseRest(prefix, rest).Ok?
    ensures RestAgrees(prefix, rest)
  {
    ServiceRead(rest);
  }

  lemma OtherRestRead(prefix: KeyKind, rest: string)
    requires prefix in {WalletKey, ScopeClaimKey, ScopeAccountKey} && ParseRest(prefix, rest).Ok?
    ensures RestAgrees(prefix, rest)
  {
    if prefix == WalletKey {
      NetworkRead(rest);
    } else if prefix == ScopeClaimKey {
      ScopeClaimRead(rest);
    } else {
      ScopeAccountRead(rest);
    }
  }

  lemma RestRead(prefix: KeyKind, rest: string)
    requires ParseRest(prefix, rest).Ok?
    ensures RestAgrees(prefix, rest)
  {
    if prefix in {UserKey, BookCashKey} {
      UserRestRead(prefix, rest);
    } else if prefix in {SharesKey, BookSharesKey} {
      HoldingRestRead(prefix, rest);
    } else if prefix in {ServiceKey, OutstandingKey, FeeKey} {
      ServiceRestRead(prefix, rest);
    } else {
      OtherRestRead(prefix, rest);
    }
  }

  predicate Lettered(s: string) {
    forall i :: 0 <= i < |s| ==> 'a' <= s[i] <= 'z' || s[i] == '_'
  }

  lemma LetteredIsSolid(s: string)
    requires Lettered(s)
    ensures Solid(s)
  {
  }

  lemma ScopePrefixesAreLettered()
    ensures Lettered("scope_claim") && Lettered("scope_account") && Lettered("book_shares") && Lettered("book_cash")
  {
  }

  lemma OtherPrefixesAreLettered()
    ensures Lettered("wallet") && Lettered("user") && Lettered("service") && Lettered("shares")
    ensures Lettered("shares_outstanding") && Lettered("shares_fee")
  {
  }

  lemma PrefixIsSolid(p: KeyKind)
    ensures Solid(PrefixText(p))
  {
    ScopePrefixesAreLettered();
    OtherPrefixesAreLettered();
    LetteredIsSolid(PrefixText(p));
  }

  lemma PlainKeysAreSolid()
    ensures Solid("clearing") && Solid("hold_clearing") && Solid("bank")
  {
  }

  /** The part of a key that names a user, found from the whole key. */
  function UserPartOf(raw: string): Option<string> {
    var (before, rest) := SplitOnce(raw, ':').GetOr(([], []));
    match ParsePrefix(before)
    case Some(prefix) => UserPart(prefix, rest)
    case None => None
  }

  lemma JoinedKeyRead(prefix: KeyKind, rest: string)
    requires ParseRest(prefix, rest).Ok?
    ensures var raw := Joined(PrefixText(prefix), rest);
            LogicalKey(ParseRest(prefix, rest).value) == raw <==> Solid(raw) && PlainUser(UserPart(prefix, rest))
  {
    PrefixRoundTrip(prefix);
    PrefixIsSolid(prefix);
    RestRead(prefix, rest);
    SolidJoin(PrefixText(prefix), rest);
    JoinedOnce(PrefixText(prefix), rest, PrefixText(prefix), Parts(ParseRest(prefix, rest).value).value.1);
  }

  lemma JoinedKeyIs(raw: string) returns (prefix: KeyKind, rest: string)
    requires ParseLogicalKey(raw).Ok? && raw !in {"clearing", "hold_clearing", "bank"}
    ensures raw == Joined(PrefixText(prefix), rest) && ParseLogicalKey(raw) == ParseRest(prefix, rest)
    ensures UserPartOf(raw) == UserPart(prefix, rest)
  {
    SplitMeans(raw, ':');
    var before := SplitOnce(raw, ':').value.0;
    rest := SplitOnce(raw, ':').value.1;
    prefix := ParsePrefix(before).value;
    PrefixIsItself(before);
  }

  /**
  More is read than is printed: a key that reads is the printed form of the account it names exactly
  when it holds no whitespace and its user, if its kind has one, is thirty-six characters in lower case.
   */
  lemma ReadKeyIsPrintedIff(raw: string)
    requires ParseLogicalKey(raw).Ok?
    ensures LogicalKey(ParseLogicalKey(raw).value) == raw <==> Solid(raw) && PlainUser(UserPartOf(raw))
  {
    if raw in {"clearing", "hold_clearing", "bank"} {
      PlainKeyRead(raw);
    } else {
      var prefix, rest := JoinedKeyIs(raw);
      JoinedKeyRead(prefix, rest);
    }
  }

  lemma NoColonNoUser(raw: string)
    requires ':' !in raw
    ensures UserPartOf(raw) == None
  {
    SplitMeans(raw, ':');
  }

  lemma PlainKeyIs(key: AccountKey)
    requires Parts(key).None?
    ensures Solid(LogicalKey(key)) && ':' !in LogicalKey(key)
  {
    PlainKeysAreSolid();
    PlainKeysHaveNoColon();
  }

  lemma PlainKeyRead(raw: string)
    requires raw in {"clearing", "hold_clearing", "bank"}
    ensures ParseLogicalKey(raw).Ok? && LogicalKey(ParseLogicalKey(raw).value) == raw
    ensures Solid(raw) && PlainUser(UserPartOf(raw))
  {
    var key := if raw == "clearing" then WithdrawalClearing else if raw == "bank" then BankCustody else HoldClearing;
    assert LogicalKey(key) == raw;
    KeyRoundTrip(key);
    PlainKeyIs(key);
    NoColonNoUser(raw);
  }

  lemma PaddedTrims(c: char)
    requires !IsWhitespace(c)
    ensures Trim([' ', c]) == [c]
  {
    assert [' ', c][1..] == [c];
    assert TrimStart([c]) == [c] && TrimEnd([c]) == [c];
  }

  lemma PaddedService(c: char)
    requires Alphanumeric(c)
    ensures ParseLogicalKey(Joined("service", [' ', c])) == Ok(ServiceClaim([c]))
  {
    JoinedIsParsed(ServiceKey, [' ', c]);
    PaddedTrims(c);
  }

  /** Such a key: a service padded with a space reads as the service. */
  lemma PaddedServiceIsRead()
    ensures ParseLogicalKey("service: a") == Ok(ServiceClaim("a"))
    ensures LogicalKey(ServiceClaim("a")) != "service: a"
  {
    assert "service: a" == Joined("service", [' ', 'a']);
    assert "a" == ['a'];
    PaddedService('a');
    assert |LogicalKey(ServiceClaim("a"))| == |"service"| + 2;
  }

  /** So is a user without hyphens, in braces or as a URN, in every case. */
  lemma OtherUserFormsAreRead(user: UserId)
    ensures ParseLogicalKey(Joined("user", SimpleText(user))) == Ok(UserClaim(user))
    ensures ParseLogicalKey(Joined("user", ['{'] + UuidText(user) + ['}'])) == Ok(UserClaim(user))
    ensures ParseLogicalKey(Joined("user", "urn:uuid:" + UuidText(user))) == Ok(UserClaim(user))
    ensures LogicalKey(UserClaim(user)) != Joined("user", SimpleText(user))
  {
    OtherFormsAreRead(user);
    JoinedIsParsed(UserKey, SimpleText(user));
    JoinedIsParsed(UserKey, ['{'] + UuidText(user) + ['}']);
    JoinedIsParsed(UserKey, "urn:uuid:" + UuidText(user));
    assert |LogicalKey(UserClaim(user))| == |"user"| + 37;
  }

  /** The word a key begins with. */
  function WordOf(key: AccountKey): string {
    if key.CryptoWallet? then "wallet" else if key.UserClaim? then "user" else if key.ServiceClaim? then "service"
    else if key.UserShares? then "shares" else if key.SharesOutstanding? then "shares_outstanding"
    else if key.FeeShares? then "shares_fee" else if key.BookShares? then "book_shares" else if key.BookCash? then "book_cash"
    else if key.ScopeClaim? then "scope_claim" else "scope_account"
  }

  lemma PrefixIsTheWord(key: AccountKey)
    requires Parts(key).Some?
    ensures PrefixText(Parts(key).value.0) == WordOf(key)
  {
  }

  /** Every key spells the word of its kind and then what it names; the three accounts there is one of each spell a word alone. */
  lemma KeySpells(key: AccountKey)
    ensures Parts(key).Some? ==> LogicalKey(key) == Joined(WordOf(key), Parts(key).value.1)
    ensures key == WithdrawalClearing ==> LogicalKey(key) == "clearing"
    ensures key == BankCustody ==> LogicalKey(key) == "bank"
    ensures key == HoldClearing ==> LogicalKey(key) == "hold_clearing"
  {
    if Parts(key).Some? {
      PrefixIsTheWord(key);
    }
  }

  lemma RestIsBuildable(prefix: KeyKind, rest: string)
    requires ParseRest(prefix, rest).Ok?
    ensures Buildable(ParseRest(prefix, rest).value)
  {
  }

  /** Whatever is read is an account there may be: of well-formed names, and no user's compartment of `main`. */
  lemma ReadKeysAreBuildable(raw: string)
    requires ParseLogicalKey(raw).Ok?
    ensures Buildable(ParseLogicalKey(raw).value)
    ensures ParseLogicalKey(raw).value.ScopeClaim? ==> ParseLogicalKey(raw).value.scope != "main"
  {
    if raw !in {"clearing", "hold_clearing", "bank"} {
      var (before, rest) := SplitOnce(raw, ':').value;
      RestIsBuildable(ParsePrefix(before).value, rest);
    }
  }
}
