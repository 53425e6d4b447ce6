/**
 * The bank-accounts page: the account-type label and icon, the balance an
 * account shows and the total across accounts, the currency fallback, which
 * fetch errors are surfaced, how the account list is taken from the reply,
 * and the remove-account dialog.
 */
module BanksPage {
  import opened Js

  /** A connected account as the page reads it. `current` is `balances?.current`. */
  datatype BankAccount = BankAccount(
    id: Option<Value>, docId: Option<Value>,
    current: Option<int>, balance: Option<int>, available: Option<Value>,
    kind: Option<string>, subtype: Option<string>)

  // ---------------------------------------------------------------- labels

  /** The index of the first `c` in `s`, as `indexOf` finds it. */
  function FirstIndexOf(s: string, c: char): (r: Option<nat>)
    ensures r.None? <==> c !in s
    ensures r.Some? ==> r.value < |s| && s[r.value] == c && c !in s[..r.value]
  {
    if s == [] then None
    else if s[0] == c then Some(0)
    else
      var rest := FirstIndexOf(s[1..], c);
      assert s[1..] == s[1..][..];
      if rest.None? then None
      else
        assert s[..rest.value + 1] == [s[0]] + s[1..][..rest.value];
        Some(rest.value + 1)
  }

  /** `s.replace(c, d)` with one-character strings: the first occurrence of
      `c`, found as `indexOf` finds it, is replaced by `d`. */
  function ReplaceFirst(s: string, c: char, d: char): (r: string)
    ensures |r| == |s|
    ensures c !in s ==> r == s
  {
    match FirstIndexOf(s, c)
    case None => s
    case Some(k) => s[..k] + [d] + s[k + 1..]
  }

  /** `s.charAt(0).toUpperCase() + s.slice(1)` */
  function Capitalise(s: string): (r: string)
    requires s != []
    ensures |r| == |s| && r[0] == ToUpperChar(s[0]) && r[1..] == s[1..]
  {
    [ToUpperChar(s[0])] + s[1..]
  }

  /** `formatAccountType(type, subtype)` */
  function FormatAccountType(kind: Option<string>, subtype: Option<string>): (r: string)
    ensures StrTruthy(subtype) ==>
      |r| == |subtype.value| && r[0] == ToUpperChar(subtype.value[0]) &&
      r[1..] == ReplaceFirst(subtype.value[1..], '_', ' ')
    ensures !StrTruthy(subtype) && StrTruthy(kind) ==> r == Capitalise(kind.value)
    ensures !StrTruthy(subtype) && !StrTruthy(kind) ==> r == "Account"
  {
    if StrTruthy(subtype) then [ToUpperChar(subtype.value[0])] + ReplaceFirst(subtype.value[1..], '_', ' ')
    else if StrTruthy(kind) then Capitalise(kind.value)
    else "Account"
  }

  /** The first occurrence is at or before any occurrence. */
  lemma FirstIndexAtMost(s: string, c: char, i: nat)
    requires i < |s| && s[i] == c
    ensures FirstIndexOf(s, c).Some? && FirstIndexOf(s, c).value <= i
  {
  }

  /** `replace` keeps every character but the first occurrence. */
  lemma ReplaceFirstKeepsOthers(s: string, c: char, d: char, j: nat)
    requires j < |s| && FirstIndexOf(s, c) != Some(j)
    ensures ReplaceFirst(s, c, d)[j] == s[j]
  {
    var first := FirstIndexOf(s, c);
    if first.Some? {
      var k := first.value;
      var r := s[..k] + [d] + s[k + 1..];
      if j < k {
        assert r[j] == s[..k][j];
      } else {
        assert r[j] == s[k + 1..][j - k - 1];
      }
    }
  }

  /** `replace` keeps every occurrence after the first. */
  lemma ReplaceFirstKeepsLater(s: string, c: char, d: char, i: nat, j: nat)
    requires i < j < |s| && s[i] == c && s[j] == c
    ensures ReplaceFirst(s, c, d)[j] == c
  {
    FirstIndexAtMost(s, c, i);
    ReplaceFirstKeepsOthers(s, c, d, j);
  }

  /** `replace` rewrites the first occurrence. */
  lemma ReplaceFirstRewritesFirst(s: string, c: char, d: char, i: nat)
    requires i < |s| && s[i] == c && c !in s[..i]
    ensures ReplaceFirst(s, c, d)[i] == d
  {
    FirstIndexAtMost(s, c, i);
    var k := FirstIndexOf(s, c).value;
    assert (s[..k] + [d] + s[k + 1..])[k] == d;
  }

  /** A subtype's label is its first letter capitalised, then its rest with the first underscore replaced. */
  lemma SubtypeLabel(kind: Option<string>, subtype: string)
    requires subtype != []
    ensures FormatAccountType(kind, Some(subtype)) == [ToUpperChar(subtype[0])] + ReplaceFirst(subtype[1..], '_', ' ')
  {
  }

  /** Only the first underscore after the first letter becomes a space: a
      later underscore is kept. */
  lemma SubtypeLabelKeepsLaterUnderscores(kind: Option<string>, subtype: string, i: nat, j: nat)
    requires 1 <= i < j < |subtype| && subtype[i] == '_' && subtype[j] == '_'
    ensures FormatAccountType(kind, Some(subtype))[j] == '_'
    ensures '_' !in subtype[1..i] ==> FormatAccountType(kind, Some(subtype))[i] == ' '
  {
    var rest := subtype[1..];
    var tail := ReplaceFirst(rest, '_', ' ');
    SubtypeLabel(kind, subtype);
    ReplaceFirstKeepsLater(rest, '_', ' ', i - 1, j - 1);
    ConsIndex(ToUpperChar(subtype[0]), tail, j);
    if '_' !in subtype[1..i] {
      assert rest[..i - 1] == subtype[1..i];
      ReplaceFirstRewritesFirst(rest, '_', ' ', i - 1);
      ConsIndex(ToUpperChar(subtype[0]), tail, i);
    }
  }

  lemma ConsIndex(x: char, t: string, j: nat)
    requires 1 <= j <= |t|
    ensures ([x] + t)[j] == t[j - 1]
  {
  }

  /** `account.type || 'depository'`, the type the page passes on. */
  function AccountTypeOf(account: BankAccount): (r: string)
    ensures StrTruthy(account.kind) ==> r == account.kind.value
    ensures !StrTruthy(account.kind) ==> r == "depository"
  {
    if StrTruthy(account.kind) then account.kind.value else "depository"
  }

  /** On the page the type is never missing, so the "Account" label cannot
      appear from the last branch; an account with neither type nor subtype
      reads "Depository". */
  lemma PageLabelFallback(account: BankAccount)
    requires !StrTruthy(account.subtype) && !StrTruthy(account.kind)
    ensures FormatAccountType(Some(AccountTypeOf(account)), account.subtype) == "Depository"
  {
    assert ToUpperChar('d') == 'D';
  }

  /** The icons an account card can show. */
  datatype AccountIcon = CreditCard | Landmark | TrendingUp | Wallet

  /** `getAccountIcon(type, subtype)`: the tests run in order and the first one that holds wins. */
  function GetAccountIcon(kind: string, subtype: Option<string>): (r: AccountIcon)
    ensures r == CreditCard <==> kind == "credit" || subtype == Some("credit card")
    ensures r == Landmark <==> (!(kind == "credit" || subtype == Some("credit card")) &&
      (kind == "depository" || subtype == Some("checking") || subtype == Some("savings")))
    ensures r == TrendingUp <==> (!(kind == "credit" || subtype == Some("credit card")) &&
      !(kind == "depository" || subtype == Some("checking") || subtype == Some("savings")) &&
      kind == "investment")
  {
    if kind == "credit" || subtype == Some("credit card") then CreditCard
    else if kind == "depository" || subtype == Some("checking") || subtype == Some("savings") then Landmark
    else if kind == "investment" then TrendingUp
    else Wallet
  }

  /** A credit-card subtype wins over any type, and an account with no type is
      shown as a bank account unless its subtype says credit card. */
  lemma IconPriority(account: BankAccount)
    ensures account.subtype == Some("credit card") ==> GetAccountIcon(AccountTypeOf(account), account.subtype) == CreditCard
    ensures !StrTruthy(account.kind) && account.subtype != Some("credit card") ==>
      GetAccountIcon(AccountTypeOf(account), account.subtype) == Landmark
    ensures GetAccountIcon(AccountTypeOf(account), account.subtype) != Wallet ==>
      AccountTypeOf(account) in {"credit", "depository", "investment"} ||
      account.subtype in {Some("credit card"), Some("checking"), Some("savings")}
  {
  }

  // -------------------------------------------------------------- balances

  /** `account.balances?.current || account.balance || 0` */
  function BalanceOf(account: BankAccount): (r: int)
    ensures account.current.Some? && account.current.value != 0 ==> r == account.current.value
    ensures NumOr(account.current, 0) == 0 && account.balance.Some? && account.balance.value != 0 ==> r == account.balance.value
    ensures NumOr(account.current, 0) == 0 && NumOr(account.balance, 0) == 0 ==> r == 0
  {
    NumOr(account.current, NumOr(account.balance, 0))
  }

  /** `getTotalBalance`: the `reduce` adding each account's balance to a running total from 0. */
  function TotalBalance(accounts: seq<BankAccount>): (r: int)
    ensures |accounts| == 1 ==> r == BalanceOf(accounts[0])
  {
    if accounts == [] then 0
    else TotalBalance(accounts[..|accounts| - 1]) + BalanceOf(accounts[|accounts| - 1])
  }

  /** No accounts total 0, and the total of two lists is the sum of their totals. */
  lemma {:induction false} TotalBalanceAppend(xs: seq<BankAccount>, ys: seq<BankAccount>)
    ensures TotalBalance([]) == 0
    ensures TotalBalance(xs + ys) == TotalBalance(xs) + TotalBalance(ys)
  {
    if ys == [] {
      assert xs + ys == xs;
    } else {
      var zs := xs + ys;
      assert zs[..|zs| - 1] == xs + ys[..|ys| - 1];
      assert zs[|zs| - 1] == ys[|ys| - 1];
      TotalBalanceAppend(xs, ys[..|ys| - 1]);
    }
  }

  /** With no negative balance the total is not negative. */
  lemma {:induction false} TotalBalanceNonNegative(accounts: seq<BankAccount>)
    requires forall k :: 0 <= k < |accounts| ==> BalanceOf(accounts[k]) >= 0
    ensures TotalBalance(accounts) >= 0
  {
    if accounts != [] {
      var init := accounts[..|accounts| - 1];
      assert forall k :: 0 <= k < |init| ==> BalanceOf(init[k]) >= 0 by {
        forall k | 0 <= k < |init| ensures BalanceOf(init[k]) >= 0 {
          assert init[k] == accounts[k];
        }
      }
      TotalBalanceNonNegative(init);
    }
  }

  /** What `formatCurrency` shows: "N/A", or the rupee sign and the amount. */
  datatype CurrencyText = NotAvailable | Rupees(amount: Value)

  /** `formatCurrency(amount)`: "N/A" exactly for null and undefined. */
  function FormatCurrency(amount: Option<Value>): (r: CurrencyText)
    ensures r == NotAvailable <==> amount == None || amount == Some(Null)
    ensures r.Rupees? ==> r.amount == amount.value
  {
    if amount == None || amount == Some(Null) then NotAvailable else Rupees(amount.value)
  }

  /** The per-account balance and the total are numbers, so neither ever reads "N/A". */
  lemma BalancesAlwaysShown(accounts: seq<BankAccount>, k: nat)
    requires k < |accounts|
    ensures FormatCurrency(Some(Num(BalanceOf(accounts[k])))) == Rupees(Num(BalanceOf(accounts[k])))
    ensures FormatCurrency(Some(Num(TotalBalance(accounts)))) == Rupees(Num(TotalBalance(accounts)))
  {
  }

  /** `available !== null && available !== undefined && available !== balance` */
  predicate ShowAvailable(available: Option<Value>, balance: int)
  {
    available.Some? && available.value != Null && available.value != Num(balance)
  }

  /** The "Available" line and its amount: when shown it is never "N/A" and
      never the current balance again. */
  lemma AvailableLine(account: BankAccount)
    ensures ShowAvailable(account.available, BalanceOf(account)) ==>
      FormatCurrency(account.available) == Rupees(account.available.value) &&
      account.available.value != Num(BalanceOf(account))
    ensures account.available == Some(Num(BalanceOf(account))) ==> !ShowAvailable(account.available, BalanceOf(account))
  {
  }

  /** `accounts.length !== 1 ? 's' : ''` */
  function PluralSuffix(count: nat): (r: string)
    ensures r == "s" <==> count != 1
    ensures r == "" <==> count == 1
  {
    if count != 1 then "s" else ""
  }

  // ----------------------------------------------------------------- fetch

  /** The value `getBankAccounts` resolves with: an object with optional
      `accounts` and `data` lists, a bare list, or a falsy primitive (`""`, `0`
      or `false`), whose `accounts` and `data` are undefined. A null or
      undefined reply makes `response.accounts` throw instead. */
  datatype AccountsReply =
    | Wrapped(accounts: Option<seq<BankAccount>>, data: Option<seq<BankAccount>>)
    | Listed(list: seq<BankAccount>)
    | Falsy

  /** `response.accounts || response.data || response || []`. A list is truthy
      even when empty; `None` is an object with neither key, which is stored
      as it is and is not a list. */
  function ResolveAccounts(reply: AccountsReply): (r: Option<seq<BankAccount>>)
    ensures reply.Wrapped? && reply.accounts.Some? ==> r == reply.accounts
    ensures reply.Wrapped? && reply.accounts.None? ==> r == reply.data
    ensures reply.Listed? ==> r == Some(reply.list)
    ensures reply.Falsy? ==> r == Some([])
  {
    match reply
    case Wrapped(accounts, data) => if accounts.Some? then accounts else data
    case Listed(list) => Some(list)
    case Falsy => Some([])
  }

  /** An empty `accounts` list is kept rather than falling through to `data`. */
  lemma EmptyAccountsListWins(data: Option<seq<BankAccount>>)
    ensures ResolveAccounts(Wrapped(Some([]), data)) == Some([])
  {
  }

  const LoadFailedMessage: string := "Failed to load bank accounts. Please try again."

  /** `err.message && !err.message.includes('404') && !err.message.includes('Network')` */
  predicate ShowFetchError(message: Option<string>)
  {
    StrTruthy(message) && !Includes(message.value, "404") && !Includes(message.value, "Network")
  }

  /** A message holding "404" or "Network" anywhere is suppressed, and so is
      a missing or empty one. */
  lemma FetchErrorSuppressed(before: string, after: string)
    ensures !ShowFetchError(Some(before + "404" + after))
    ensures !ShowFetchError(Some(before + "Network" + after))
    ensures !ShowFetchError(None) && !ShowFetchError(Some(""))
  {
    var s, t := before + "404" + after, before + "Network" + after;
    assert s[|before|..|before| + 3] == "404";
    assert OccursAt(s, "404", |before|);
    assert t[|before|..|before| + 7] == "Network";
    assert OccursAt(t, "Network", |before|);
  }

  /** Any other non-empty message is shown: one where neither marker starts at any position. */
  lemma FetchErrorShown(m: string)
    requires m != ""
    requires forall i :: !OccursAt(m, "404", i)
    requires forall i :: !OccursAt(m, "Network", i)
    ensures ShowFetchError(Some(m))
  {
  }

  /** A string without the first character of `sub` cannot contain `sub`. */
  lemma NoFirstCharNoInclude(s: string, sub: string)
    requires sub != [] && sub[0] !in s
    ensures !Includes(s, sub)
  {
    forall i | 0 <= i <= |s| - |sub|
      ensures !OccursAt(s, sub, i)
    {
      assert s[i] in s;
    }
  }

  /** The body of a failed response, as `error.response?.data`: an object,
      whose `message` key may be missing; a string; or nothing (no response,
      or an empty body). */
  datatype ResponseBody = ObjectBody(message: Option<string>) | TextBody(text: string) | NoBody

  /** A failed request: its response body and the request error's own message
      (such as "Network Error" or "Request failed with status code 404"). */
  datatype RequestFailure = RequestFailure(body: ResponseBody, requestMessage: string)

  /** `err.message` on the page for what `getBankAccounts` rethrows,
      `error.response?.data || error.message`: the body when it is truthy,
      otherwise the request message. Only an object has a `message`; a
      thrown string has none. */
  function RethrownMessage(f: RequestFailure): (r: Option<string>)
    ensures f.body.ObjectBody? ==> r == f.body.message
    ensures !f.body.ObjectBody? ==> r == None
  {
    match f.body
    case ObjectBody(message) => message
    case _ => None
  }

  /** What the suppression rule actually sees: the request's own message never
      reaches the page, so a network failure or a non-object body shows no
      error whatever it says, and an object body is judged by its `message`. */
  lemma RequestMessageNeverReachesPage(f: RequestFailure)
    ensures !f.body.ObjectBody? ==> !ShowFetchError(RethrownMessage(f))
    ensures f.body.ObjectBody? ==> ShowFetchError(RethrownMessage(f)) == ShowFetchError(f.body.message)
    ensures RethrownMessage(f) == RethrownMessage(f.(requestMessage := ""))
  {
  }

  /** An example, not a general fact: a 500 response whose object body says
      "Internal server error" is shown. The general rules are
      `RequestMessageNeverReachesPage` and `FetchErrorShown`. */
  lemma ServerMessageShown()
    ensures ShowFetchError(RethrownMessage(RequestFailure(ObjectBody(Some("Internal server error")),
      "Request failed with status code 500")))
  {
    NoFirstCharNoInclude("Internal server error", "404");
    NoFirstCharNoInclude("Internal server error", "Network");
  }

  /** The removal call the dialog makes: none, or with `account.id || account._id`. */
  datatype RemoveCall = NoCall | Removed(accountId: Option<Value>)

  class BanksState {
    var accounts: Option<seq<BankAccount>>
    var loading: bool
    var error: Option<string>
    var showRemoveModal: bool
    var accountToRemove: Option<BankAccount>
    var removing: bool

    constructor ()
      ensures accounts == Some([]) && !loading && error == None
      ensures !showRemoveModal && accountToRemove == None && !removing
    {
      accounts := Some([]);
      loading := false;
      error := None;
      showRemoveModal := false;
      accountToRemove := None;
      removing := false;
    }

    /** `fetchBankAccounts`, given how the service call settled. A failure keeps
        the list and shows the error only when `ShowFetchError` lets it through. */
    method FetchBankAccounts(response: Outcome<AccountsReply>)
      modifies this
      ensures !loading
      ensures response.Resolved? ==> accounts == ResolveAccounts(response.value) && error == None
      ensures response.Threw? ==> (accounts == old(accounts) &&
        error == (if ShowFetchError(response.message) then Some(LoadFailedMessage) else None))
      ensures showRemoveModal == old(showRemoveModal) && accountToRemove == old(accountToRemove) && removing == old(removing)
    {
      loading := true;
      error := None;
      match response {
        case Resolved(reply) =>
          accounts := ResolveAccounts(reply);
        case Threw(message) =>
          if ShowFetchError(message) {
            error := Some(LoadFailedMessage);
          }
      }
      loading := false;
    }

    /** `handleRemoveClick` */
    method HandleRemoveClick(account: BankAccount)
      modifies this
      ensures accountToRemove == Some(account) && showRemoveModal
      ensures accounts == old(accounts) && loading == old(loading) && error == old(error) && removing == old(removing)
    {
      accountToRemove := Some(account);
      showRemoveModal := true;
    }

    /** `handleRemoveConfirm`: nothing happens without a chosen account; a
        successful removal closes the dialog and forgets the account, a failed
        one only alerts. The list is then fetched again by the caller. */
    method HandleRemoveConfirm(succeeded: bool) returns (call: RemoveCall)
      modifies this
      ensures old(accountToRemove) == None ==> (call == NoCall &&
        accountToRemove == old(accountToRemove) && showRemoveModal == old(showRemoveModal) && removing == old(removing))
      ensures old(accountToRemove).Some? ==> (!removing &&
        call == Removed(Or(old(accountToRemove).value.id, old(accountToRemove).value.docId)))
      ensures old(accountToRemove).Some? && succeeded ==> !showRemoveModal && accountToRemove == None
      ensures old(accountToRemove).Some? && !succeeded ==> showRemoveModal == old(showRemoveModal) && accountToRemove == old(accountToRemove)
      ensures accounts == old(accounts) && loading == old(loading) && error == old(error)
    {
      if accountToRemove.None? {
        return NoCall;
      }
      removing := true;
      call := Removed(Or(accountToRemove.value.id, accountToRemove.value.docId));
      if succeeded {
        showRemoveModal := false;
        accountToRemove := None;
      }
      removing := false;
    }
  }
}
