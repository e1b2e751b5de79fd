/** Bounded cursor pagination over a provider that serves a wallet's history newest first. */
module Fetch {
  import opened Arithmetic
  import opened Wrappers
  import opened Transfers

  datatype EnhancedPage = EnhancedPage(transactions: seq<EnhancedTransaction>, before: string)

  /** What one page request meets: a page of `1 + extra` transactions, or a failure. */
  datatype Reply = Serve(extra: nat, withCursor: bool) | Refuse(retryable: bool)

  datatype FetchError = InvalidParams | ClientRefused | RetryExhausted | ContextDone

  datatype TruncationCode = MaxPagesReached | MaxTxReached | HeliusRetryExhausted

  datatype FetchWindowParams = FetchWindowParams(
    start: int, end: int, maxPages: int, maxTx: int, maxRetries: int, requestDelay: int)

  datatype FetchWindowResult = FetchWindowResult(
    transactions: seq<EnhancedTransaction>, partial: bool, code: Option<TruncationCode>, retryExhausted: bool)

  /** Newest first, every transaction with its own non-empty signature. */
  ghost predicate NewestFirst(h: seq<EnhancedTransaction>) {
    && (forall i, j :: 0 <= i < j < |h| ==> h[i].time >= h[j].time && h[i].signature != h[j].signature)
    && (forall i :: 0 <= i < |h| ==> h[i].signature != "")
  }

  predicate InWindow(tx: EnhancedTransaction, start: int, end: int) {
    start <= tx.time < end
  }

  /** The transactions of `h` inside [start, end), in order. */
  function Window(h: seq<EnhancedTransaction>, start: int, end: int): seq<EnhancedTransaction> {
    if h == [] then []
    else
      var init, last := h[..|h| - 1], h[|h| - 1];
      if InWindow(last, start, end) then Window(init, start, end) + [last] else Window(init, start, end)
  }

  /** The position a cursor points at: the newest transaction, or the one after the cursor's signature. */
  function Offset(h: seq<EnhancedTransaction>, before: string): (i: nat)
    ensures i <= |h|
  {
    if before == "" || h == [] then 0
    else if h[0].signature == before then 1
    else 1 + Offset(h[1..], before)
  }

  /** The page served after a cursor. */
  function PageAt(h: seq<EnhancedTransaction>, before: string, extra: nat, withCursor: bool): EnhancedPage {
    var i := Offset(h, before);
    var txs := h[i..Min(|h|, i + 1 + extra)];
    EnhancedPage(txs, if withCursor && txs != [] then txs[|txs| - 1].signature else "")
  }

  /** The provider behind the HTTP client. Histories never change; the outcome of every attempt is arbitrary. */
  class Client {
    const histories: map<Address, seq<EnhancedTransaction>>
    const replies: nat -> Reply
    const survives: nat -> bool   // whether the sleep after so many attempts outlives the context
    var attempts: nat

    constructor (histories: map<Address, seq<EnhancedTransaction>>, replies: nat -> Reply, survives: nat -> bool)
      ensures this.histories == histories && this.replies == replies && this.survives == survives && attempts == 0
    {
      this.histories := histories;
      this.replies := replies;
      this.survives := survives;
      attempts := 0;
    }

    function History(wallet: Address): seq<EnhancedTransaction> {
      if wallet in histories then histories[wallet] else []
    }

    method FetchEnhancedPage(wallet: Address, before: string) returns (r: Result<EnhancedPage, bool>)
      modifies this`attempts
      ensures attempts == old(attempts) + 1
      ensures match replies(old(attempts))
              case Serve(extra, withCursor) => r == Success(PageAt(History(wallet), before, extra, withCursor))
              case Refuse(retryable) => r == Failure(retryable)
    {
      var reply := replies(attempts);
      attempts := attempts + 1;
      match reply
      case Serve(extra, withCursor) => r := Success(PageAt(History(wallet), before, extra, withCursor));
      case Refuse(retryable) => r := Failure(retryable);
    }

    method Sleep() returns (ok: bool)
      ensures ok == survives(attempts)
    {
      ok := survives(attempts);
    }
  }

  const BASE_BACKOFF_MS := 200
  const MAX_BACKOFF_MS := 5000
  const MAX_BACKOFF_SHIFT := 5

  function Doubled(x: nat, times: nat): nat {
    if times == 0 then x else 2 * Doubled(x, times - 1)
  }

  /** Milliseconds before retry `attempt`: doubling up to a cap, then a deterministic jitter. */
  method RetryBackoff(attempt: int) returns (ms: nat)
    ensures 200 <= ms <= 5096
    ensures attempt <= 0 ==> ms == 200
    ensures 1 <= attempt <= 4 ==> ms == [400, 800, 1600, 3200][attempt - 1] + (attempt * 37) % 97
    ensures attempt >= 5 ==> ms == 5000 + ((attempt % 97) * 37) % 97
    ensures var a := Max(attempt, 0);
            ms == Min(Doubled(BASE_BACKOFF_MS, Min(a, MAX_BACKOFF_SHIFT)), MAX_BACKOFF_MS) + ((a % 97) * 37) % 97
  {
    var a := if attempt < 0 then 0 else attempt;
    var shift := a;
    if shift > MAX_BACKOFF_SHIFT { shift := MAX_BACKOFF_SHIFT; }
    var backoff := BASE_BACKOFF_MS;
    for k := 0 to shift
      invariant backoff == Doubled(BASE_BACKOFF_MS, k) && backoff >= BASE_BACKOFF_MS
    {
      backoff := 2 * backoff;
    }
    if backoff > MAX_BACKOFF_MS { backoff := MAX_BACKOFF_MS; }
    var jitter := ((a % 97) * 37) % 97;
    ms := backoff + jitter;
  }

  /** One page, retried while the failure is retryable and retries remain. */
  method FetchPageWithRetry(client: Client, wallet: Address, before: string, maxRetries: int)
    returns (r: Result<EnhancedPage, FetchError>)
    modifies client`attempts
    ensures old(client.attempts) < client.attempts <= old(client.attempts) + Max(maxRetries, 0) + 1
    ensures forall n :: old(client.attempts) <= n < client.attempts - 1 ==> client.replies(n) == Refuse(true)
    ensures var last := client.replies(client.attempts - 1);
            match r
            case Success(page) => last.Serve? && page == PageAt(client.History(wallet), before, last.extra, last.withCursor)
            case Failure(e) => match e
              case ClientRefused => last == Refuse(false)
              case RetryExhausted => last == Refuse(true) && client.attempts == old(client.attempts) + Max(maxRetries, 0) + 1
              case ContextDone => last == Refuse(true) && !client.survives(client.attempts)
              case InvalidParams => false
  {
    var retries := if maxRetries < 0 then 0 else maxRetries;
    var attempt := 0;
    while true
      invariant 0 <= attempt <= retries
      invariant client.attempts == old(client.attempts) + attempt
      invariant forall n :: old(client.attempts) <= n < client.attempts ==> client.replies(n) == Refuse(true)
      decreases retries - attempt
    {
      var page := client.FetchEnhancedPage(wallet, before);
      if page.Success? { return Success(page.value); }
      if !page.error { return Failure(ClientRefused); }
      if attempt >= retries { return Failure(RetryExhausted); }
      var backoff := RetryBackoff(attempt);
      var slept := client.Sleep();
      if !slept { return Failure(ContextDone); }
      attempt := attempt + 1;
    }
  }

  // ---- Windows ----

  lemma {:induction false} WindowAppend(g: seq<EnhancedTransaction>, h: seq<EnhancedTransaction>, start: int, end: int)
    ensures Window(g + h, start, end) == Window(g, start, end) + Window(h, start, end)
  {
    if h == [] {
      assert g + h == g;
    } else {
      assert (g + h)[..|g + h| - 1] == g + h[..|h| - 1];
      WindowAppend(g, h[..|h| - 1], start, end);
    }
  }

  lemma WindowStep(h: seq<EnhancedTransaction>, i: nat, start: int, end: int)
    requires i < |h|
    ensures Window(h[..i + 1], start, end)
         == Window(h[..i], start, end) + if InWindow(h[i], start, end) then [h[i]] else []
  {
    assert h[..i + 1][..i] == h[..i];
  }

  lemma WindowPrefix(h: seq<EnhancedTransaction>, i: nat, start: int, end: int)
    requires i <= |h|
    ensures Window(h[..i], start, end) <= Window(h, start, end)
  {
    assert h == h[..i] + h[i..];
    WindowAppend(h[..i], h[i..], start, end);
  }

  /** The window holds exactly the members of the history inside the interval. */
  lemma {:induction false} WindowMembers(h: seq<EnhancedTransaction>, start: int, end: int, tx: EnhancedTransaction)
    ensures tx in Window(h, start, end) <==> tx in h && start <= tx.time < end
  {
    if h != [] {
      var init, last := h[..|h| - 1], h[|h| - 1];
      assert h == init + [last];
      WindowMembers(init, start, end, tx);
    }
  }

  lemma {:induction false} WindowEmpty(h: seq<EnhancedTransaction>, start: int, end: int)
    requires forall tx :: tx in h ==> !InWindow(tx, start, end)
    ensures Window(h, start, end) == []
  {
    if h != [] {
      assert h == h[..|h| - 1] + [h[|h| - 1]];
      WindowEmpty(h[..|h| - 1], start, end);
    }
  }

  /** Once a transaction older than `start` is seen, nothing later in the history is in the window. */
  lemma WindowCut(h: seq<EnhancedTransaction>, m: nat, i: nat, start: int, end: int)
    requires NewestFirst(h) && m < i <= |h| && h[m].time < start
    ensures Window(h[..i], start, end) == Window(h, start, end)
  {
    assert h == h[..i] + h[i..];
    WindowAppend(h[..i], h[i..], start, end);
    WindowEmpty(h[i..], start, end);
  }

  /** A window repeats no signature. */
  lemma {:induction false} WindowNewestFirst(h: seq<EnhancedTransaction>, start: int, end: int)
    requires NewestFirst(h)
    ensures NewestFirst(Window(h, start, end))
  {
    if h != [] {
      var init, last := h[..|h| - 1], h[|h| - 1];
      WindowNewestFirst(init, start, end);
      forall tx | tx in Window(init, start, end) ensures tx.time >= last.time && tx.signature != last.signature {
        WindowMembers(init, start, end, tx);
      }
    }
  }

  /** Two adjacent windows join, newer before older, into the window that spans them. */
  lemma {:induction false} AdjacentWindows(h: seq<EnhancedTransaction>, a: int, b: int, c: int)
    requires NewestFirst(h) && a <= b <= c
    ensures Window(h, b, c) + Window(h, a, b) == Window(h, a, c)
  {
    if h != [] {
      var init, last := h[..|h| - 1], h[|h| - 1];
      AdjacentWindows(init, a, b, c);
      if b <= last.time < c {
        forall tx | tx in init ensures !InWindow(tx, a, b) {
          var k :| 0 <= k < |init| && init[k] == tx;
          assert h[k].time >= h[|h| - 1].time;
        }
        WindowEmpty(init, a, b);
      }
    }
  }

  lemma {:induction false} OffsetAfter(h: seq<EnhancedTransaction>, i: nat)
    requires NewestFirst(h) && i < |h|
    ensures Offset(h, h[i].signature) == i + 1
  {
    if i > 0 {
      assert h[1..][i - 1] == h[i];
      OffsetAfter(h[1..], i - 1);
    }
  }

  predicate ValidParams(p: FetchWindowParams) {
    p.maxPages >= 1 && p.maxTx >= 1 && p.start < p.end
  }

  /** The cursor of a walk that has consumed `i` transactions. */
  ghost predicate CursorAt(h: seq<EnhancedTransaction>, before: string, i: nat) {
    i <= |h| && before == if i == 0 then "" else h[i - 1].signature
  }

  lemma CursorOffset(h: seq<EnhancedTransaction>, before: string, i: nat)
    requires NewestFirst(h) && CursorAt(h, before, i)
    ensures Offset(h, before) == i
  {
    if i > 0 { OffsetAfter(h, i - 1); }
  }

  /** Keeps the transactions of one page that lie in the window; stops at the transaction cap. */
  method ScanPage(ghost h: seq<EnhancedTransaction>, ghost i: nat, page: seq<EnhancedTransaction>, kept: seq<EnhancedTransaction>, p: FetchWindowParams)
    returns (out: seq<EnhancedTransaction>, reachedBeforeWindow: bool, capped: bool, ghost j: nat)
    requires i + |page| <= |h| && page == h[i..i + |page|]
    requires kept == Window(h[..i], p.start, p.end) && |kept| < p.maxTx && p.start < p.end
    ensures i <= j <= i + |page| && out == Window(h[..j], p.start, p.end)
    ensures capped <==> |out| >= p.maxTx
    ensures |out| <= p.maxTx
    ensures !capped ==> j == i + |page| && (reachedBeforeWindow <==> exists m :: i <= m < j && h[m].time < p.start)
  {
    out, reachedBeforeWindow, capped, j := kept, false, false, i;
    for k := 0 to |page|
      invariant j == i + k && out == Window(h[..j], p.start, p.end) && |out| < p.maxTx && !capped
      invariant reachedBeforeWindow <==> exists m :: i <= m < j && h[m].time < p.start
    {
      var tx := page[k];
      assert tx == h[j];
      WindowStep(h, j, p.start, p.end);
      j := j + 1;
      if tx.time >= p.end { continue; }
      if tx.time < p.start {
        assert h[j - 1].time < p.start;
        reachedBeforeWindow := true;
        continue;
      }
      out := out + [tx];
      if |out| >= p.maxTx {
        capped := true;
        return;
      }
    }
  }

  /** The result of a walk that has kept the window of the first `i` transactions and found no reason to stop. */
  ghost predicate Collected(h: seq<EnhancedTransaction>, i: nat, p: FetchWindowParams, r: FetchWindowResult) {
    i <= |h| && r == FetchWindowResult(Window(h[..i], p.start, p.end), false, None, false) && |r.transactions| <= p.maxTx
  }

  /** What an error-free result means: a prefix of the true window, the whole of it unless marked partial. */
  ghost predicate Faithful(h: seq<EnhancedTransaction>, p: FetchWindowParams, r: FetchWindowResult) {
    && r.transactions <= Window(h, p.start, p.end)
    && |r.transactions| <= p.maxTx
    && (!r.partial ==> r.transactions == Window(h, p.start, p.end) && |r.transactions| < p.maxTx)
    && (r.partial <==> r.code.Some?)
    && (r.retryExhausted <==> r.code == Some(HeliusRetryExhausted))
    && (r.code == Some(MaxTxReached) ==> |r.transactions| == p.maxTx)
  }

  lemma TruncatedIsFaithful(h: seq<EnhancedTransaction>, i: nat, p: FetchWindowParams, r: FetchWindowResult, c: TruncationCode)
    requires Collected(h, i, p, r) && (c == MaxTxReached ==> |r.transactions| == p.maxTx)
    ensures Faithful(h, p, r.(partial := true, code := Some(c), retryExhausted := c == HeliusRetryExhausted))
  {
    WindowPrefix(h, i, p.start, p.end);
  }

  /** Consumes one page: either the walk is over, or it continues from a later cursor. */
  method ConsumePage(ghost h: seq<EnhancedTransaction>, ghost i: nat, page: EnhancedPage, before: string,
                     result: FetchWindowResult, p: FetchWindowParams)
    returns (out: FetchWindowResult, nextBefore: string, done: bool, ghost j: nat)
    requires NewestFirst(h) && CursorAt(h, before, i) && Collected(h, i, p, result)
    requires |result.transactions| < p.maxTx && p.start < p.end
    requires exists extra, withCursor :: page == PageAt(h, before, extra, withCursor)
    ensures done ==> Faithful(h, p, out) && out.code in {None, Some(MaxTxReached)}
    ensures !done ==> CursorAt(h, nextBefore, j) && Collected(h, j, p, out)
    ensures !done ==> page.transactions != [] && j == i + |page.transactions| && forall m :: i <= m < j ==> h[m].time >= p.start
  {
    out, nextBefore, done, j := result, before, true, i;
    CursorOffset(h, before, i);
    if |page.transactions| == 0 {
      assert h[..i] == h;
      return;
    }
    var kept, reachedBeforeWindow, capped, n := ScanPage(h, i, page.transactions, result.transactions, p);
    j, out := n, out.(transactions := kept);
    if capped {
      TruncatedIsFaithful(h, j, p, out, MaxTxReached);
      out := out.(partial := true, code := Some(MaxTxReached));
      return;
    }
    if reachedBeforeWindow {
      ghost var m :| i <= m < j && h[m].time < p.start;
      WindowCut(h, m, j, p.start, p.end);
      return;
    }
    nextBefore := page.before;
    if nextBefore == "" { nextBefore := page.transactions[|page.transactions| - 1].signature; }
    assert nextBefore == h[j - 1].signature;
    if nextBefore == "" || nextBefore == before {
      assert false;
      return;
    }
    done := false;
  }

  // ---- Why a fetch stops early ----

  /** Every page the provider serves holds at least `size` transactions while there are that many. */
  ghost predicate PagesHold(client: Client, size: nat) {
    size >= 1 && forall n :: client.replies(n).Serve? ==> client.replies(n).extra + 1 >= size
  }

  /** The walk, at position `i` after `pages` full pages: all it passed is recent enough, and it cannot have gone slower
      than the provider's pages allow. */
  ghost predicate Walked(client: Client, h: seq<EnhancedTransaction>, start: int, i: nat, pages: nat) {
    && i <= |h| && (forall m :: 0 <= m < i ==> h[m].time >= start)
    && forall size: nat :: PagesHold(client, size) ==> OutpacedBy(h, i, pages, size)
  }

  predicate OutpacedBy(h: seq<EnhancedTransaction>, i: nat, pages: nat, size: nat) {
    pages > 0 ==> i > (pages - 1) * size && (i >= pages * size || i == |h|)
  }

  /** More than `pages - 1` pages of `size` transactions are not older than the window. */
  predicate TooDeep(h: seq<EnhancedTransaction>, start: int, pages: int, size: nat) {
    pages >= 1 && var k := (pages - 1) * size; k >= 0 && k < |h| && h[k].time >= start
  }

  ghost predicate AllRefused(client: Client, first: nat, last: nat) {
    forall n :: first <= n < last ==> client.replies(n) == Refuse(true)
  }

  /** As many consecutive attempts as a page is given were refused, each retryably. */
  ghost predicate RetriesRefused(client: Client, maxRetries: int, from: nat, to: nat) {
    exists first, last :: from <= first && last == first + Max(maxRetries, 0) + 1 <= to && AllRefused(client, first, last)
  }

  /** What truncation code `code` says about the provider, for a fetch that made the attempts `(from, to]`. */
  ghost predicate Explained(client: Client, h: seq<EnhancedTransaction>, p: FetchWindowParams, code: TruncationCode, from: nat, to: nat) {
    match code
    case MaxTxReached => |Window(h, p.start, p.end)| >= p.maxTx
    case MaxPagesReached => forall size: nat :: PagesHold(client, size) ==> TooDeep(h, p.start, p.maxPages, size)
    case HeliusRetryExhausted => RetriesRefused(client, p.maxRetries, from, to)
  }

  /** What an error says: a refusal that is not retryable, or a context that ended during a pause. */
  ghost predicate ErrorExplained(client: Client, p: FetchWindowParams, e: FetchError, from: nat, to: nat) {
    match e
    case InvalidParams => !ValidParams(p)
    case ClientRefused => exists n :: from <= n < to && client.replies(n) == Refuse(false)
    case ContextDone => exists n :: from < n <= to && !client.survives(n)
    case RetryExhausted => false
  }

  /** The outcome of a fetch that made the attempts `(from, to]` is explained by what the provider did. */
  ghost predicate OutcomeExplained(client: Client, h: seq<EnhancedTransaction>, p: FetchWindowParams, r: FetchWindowResult,
                                   err: Option<FetchError>, from: nat, to: nat) {
    && (err.Some? ==> ErrorExplained(client, p, err.value, from, to))
    && (err.None? && r.code.Some? ==> Explained(client, h, p, r.code.value, from, to))
  }

  /** Later or earlier attempts do not take an explanation away. */
  lemma ExplanationsWiden(client: Client, h: seq<EnhancedTransaction>, p: FetchWindowParams, from: nat, to: nat, from': nat, to': nat)
    requires from' <= from && to <= to'
    ensures forall code :: Explained(client, h, p, code, from, to) ==> Explained(client, h, p, code, from', to')
    ensures forall e :: ErrorExplained(client, p, e, from, to) ==> ErrorExplained(client, p, e, from', to')
  {
  }

  lemma WalkStarts(client: Client, h: seq<EnhancedTransaction>, start: int)
    ensures Walked(client, h, start, 0, 0)
  {
  }

  /** A page that was served in full, or up to the end of the history, keeps the pace. */
  lemma PaceKept(h: seq<EnhancedTransaction>, i: nat, j: nat, pages: nat, size: nat, served: nat)
    requires OutpacedBy(h, i, pages, size) && i < j <= |h| && j == Min(|h|, i + served) && served >= size
    ensures OutpacedBy(h, j, pages + 1, size)
  {
    assert (pages + 1) * size == pages * size + size;
    assert pages > 0 ==> i >= pages * size;
  }

  lemma WalkGoesOn(client: Client, h: seq<EnhancedTransaction>, start: int, before: string, i: nat, j: nat, pages: nat, n: nat)
    requires NewestFirst(h) && CursorAt(h, before, i) && Walked(client, h, start, i, pages)
    requires client.replies(n).Serve?
    requires var page := PageAt(h, before, client.replies(n).extra, client.replies(n).withCursor);
             page.transactions != [] && j == i + |page.transactions| <= |h|
    requires forall m :: i <= m < j ==> h[m].time >= start
    ensures Walked(client, h, start, j, pages + 1)
  {
    CursorOffset(h, before, i);
    forall size: nat | PagesHold(client, size) ensures OutpacedBy(h, j, pages + 1, size) {
      PaceKept(h, i, j, pages, size, client.replies(n).extra + 1);
    }
  }

  lemma PagesUsedUp(client: Client, h: seq<EnhancedTransaction>, p: FetchWindowParams, i: nat, from: nat, to: nat)
    requires p.maxPages >= 1 && Walked(client, h, p.start, i, p.maxPages)
    ensures Explained(client, h, p, MaxPagesReached, from, to)
  {
    forall size: nat | PagesHold(client, size) ensures TooDeep(h, p.start, p.maxPages, size) {
      assert OutpacedBy(h, i, p.maxPages, size);
      NonNegativeProduct(p.maxPages - 1, size);
    }
  }

  lemma NonNegativeProduct(a: int, b: int)
    requires a >= 0 && b >= 0
    ensures a * b >= 0
  {
  }

  lemma AttemptBound(pages: nat, maxPages: nat, perPage: nat)
    requires pages <= maxPages
    ensures pages * perPage <= maxPages * perPage
  {
  }

  lemma InvalidExplained(client: Client, p: FetchWindowParams, at: nat)
    ensures !ValidParams(p) ==> ErrorExplained(client, p, InvalidParams, at, at)
  {
  }

  lemma CapExplained(client: Client, h: seq<EnhancedTransaction>, p: FetchWindowParams, r: FetchWindowResult, from: nat, to: nat)
    requires Faithful(h, p, r) && r.code == Some(MaxTxReached)
    ensures Explained(client, h, p, MaxTxReached, from, to)
  {
  }

  lemma ContextExplained(client: Client, p: FetchWindowParams, from: nat, to: nat)
    requires from < to && !client.survives(to)
    ensures ErrorExplained(client, p, ContextDone, from, to)
  {
  }

  /** The failure of a page whose attempts are `(tried, to]`. */
  lemma FailureExplained(client: Client, h: seq<EnhancedTransaction>, p: FetchWindowParams, e: FetchError, from: nat, tried: nat, to: nat)
    requires from <= tried < to && e != InvalidParams
    requires forall n :: tried <= n < to - 1 ==> client.replies(n) == Refuse(true)
    requires e == ClientRefused ==> client.replies(to - 1) == Refuse(false)
    requires e == RetryExhausted ==> client.replies(to - 1) == Refuse(true) && to == tried + Max(p.maxRetries, 0) + 1
    requires e == ContextDone ==> !client.survives(to)
    ensures e == RetryExhausted ==> Explained(client, h, p, HeliusRetryExhausted, from, to)
    ensures e != RetryExhausted ==> ErrorExplained(client, p, e, from, to)
  {
    if e == RetryExhausted { assert AllRefused(client, tried, to); }
  }

  /** Requests the next page and consumes it: the walk is over, with an explained outcome, or goes on. */
  method NextPage(client: Client, wallet: Address, ghost h: seq<EnhancedTransaction>, ghost i: nat, before: string, ghost pages: nat,
                  result: FetchWindowResult, p: FetchWindowParams, ghost from: nat)
    returns (out: FetchWindowResult, err: Option<FetchError>, nextBefore: string, done: bool, ghost j: nat)
    requires h == client.History(wallet) && NewestFirst(h) && CursorAt(h, before, i) && Collected(h, i, p, result)
    requires Walked(client, h, p.start, i, pages) && |result.transactions| < p.maxTx && p.start < p.end && from <= client.attempts
    modifies client`attempts
    ensures old(client.attempts) < client.attempts <= old(client.attempts) + Max(p.maxRetries, 0) + 1
    ensures done && err.None? ==> Faithful(h, p, out) && out.code != Some(MaxPagesReached)
    ensures err.Some? ==> done && err.value != InvalidParams && out == result && out.transactions <= Window(h, p.start, p.end)
    ensures done ==> OutcomeExplained(client, h, p, out, err, from, client.attempts)
    ensures !done ==> CursorAt(h, nextBefore, j) && Collected(h, j, p, out) && Walked(client, h, p.start, j, pages + 1)
  {
    hide Walked, Explained, ErrorExplained, TooDeep;
    out, err, nextBefore, done, j := result, None, before, true, i;
    ghost var tried := client.attempts;
    var fetched := FetchPageWithRetry(client, wallet, before, p.maxRetries);
    if fetched.Failure? {
      FailureExplained(client, h, p, fetched.error, from, tried, client.attempts);
      if fetched.error == RetryExhausted {
        TruncatedIsFaithful(h, i, p, result, HeliusRetryExhausted);
        out := result.(partial := true, code := Some(HeliusRetryExhausted), retryExhausted := true);
        return;
      }
      WindowPrefix(h, i, p.start, p.end);
      err := Some(fetched.error);
      return;
    }
    out, nextBefore, done, j := ConsumePage(h, i, fetched.value, before, result, p);
    if done {
      if out.code.Some? { CapExplained(client, h, p, out, from, client.attempts); }
      return;
    }
    WalkGoesOn(client, h, p.start, before, i, j, pages, client.attempts - 1);
  }

  /** Fetches a window. Whatever comes back without an error is a prefix of the true window; it is the whole
      window unless the result says it is partial. */
  method FetchEnhancedWindow(client: Client, wallet: Address, p: FetchWindowParams)
    returns (result: FetchWindowResult, err: Option<FetchError>)
    requires NewestFirst(client.History(wallet))
    modifies client`attempts
    ensures err == Some(InvalidParams) <==> !ValidParams(p)
    ensures !ValidParams(p) <==> p.maxPages < 1 || p.maxTx < 1 || p.start >= p.end
    ensures err.None? ==> Faithful(client.History(wallet), p, result)
    ensures err.Some? ==> result.transactions <= Window(client.History(wallet), p.start, p.end) && !result.partial
    ensures old(client.attempts) <= client.attempts
    ensures client.attempts <= old(client.attempts) + Max(p.maxPages, 0) * (Max(p.maxRetries, 0) + 1)
    ensures err.None? && result.code == Some(MaxPagesReached) ==> client.attempts >= old(client.attempts) + p.maxPages
    ensures OutcomeExplained(client, client.History(wallet), p, result, err, old(client.attempts), client.attempts)
  {
    InvalidExplained(client, p, client.attempts);
    hide Walked, Explained, ErrorExplained, TooDeep;
    result, err := FetchWindowResult([], false, None, false), None;
    ghost var h := client.History(wallet);
    ghost var perPage := Max(p.maxRetries, 0) + 1;
    AttemptBound(0, Max(p.maxPages, 0), perPage);
    if p.maxPages < 1 || p.maxTx < 1 || p.start >= p.end {
      err := Some(InvalidParams);
      return;
    }
    var before, pageCount, done := "", 0, false;
    ghost var i: nat, from := 0, client.attempts;
    WalkStarts(client, h, p.start);
    while true
      invariant CursorAt(h, before, i) && Collected(h, i, p, result) && err.None?
      invariant 0 <= pageCount <= p.maxPages && Walked(client, h, p.start, i, pageCount)
      invariant old(client.attempts) + pageCount <= client.attempts <= old(client.attempts) + pageCount * perPage
      decreases p.maxPages - pageCount
    {
      AttemptBound(pageCount, p.maxPages, perPage);
      if pageCount >= p.maxPages {
        TruncatedIsFaithful(h, i, p, result, MaxPagesReached);
        PagesUsedUp(client, h, p, i, from, client.attempts);
        result := result.(partial := true, code := Some(MaxPagesReached));
        return;
      }
      if |result.transactions| >= p.maxTx {
        TruncatedIsFaithful(h, i, p, result, MaxTxReached);
        CapExplained(client, h, p, result.(partial := true, code := Some(MaxTxReached)), from, client.attempts);
        result := result.(partial := true, code := Some(MaxTxReached));
        return;
      }
      if pageCount > 0 && p.requestDelay > 0 {
        var slept := client.Sleep();
        if !slept {
          WindowPrefix(h, i, p.start, p.end);
          ContextExplained(client, p, from, client.attempts);
          err := Some(ContextDone);
          return;
        }
      }
      result, err, before, done, i := NextPage(client, wallet, h, i, before, pageCount, result, p, from);
      assert (pageCount + 1) * perPage == pageCount * perPage + perPage;
      AttemptBound(pageCount + 1, p.maxPages, perPage);
      pageCount := pageCount + 1;
      if done { return; }
    }
  }

  // ---- A provider that answers ----

  /** No attempt is refused and no pause outlives the context. */
  ghost predicate Responds(client: Client) {
    (forall n :: client.replies(n).Serve?) && forall n :: client.survives(n)
  }

  /** The window lies inside both caps, for some page size the provider keeps to. */
  ghost predicate Fits(client: Client, h: seq<EnhancedTransaction>, p: FetchWindowParams) {
    && |Window(h, p.start, p.end)| < p.maxTx
    && exists size: nat :: PagesHold(client, size) && !TooDeep(h, p.start, p.maxPages, size)
  }

  lemma RetriesAreRefusals(client: Client, maxRetries: int, from: nat, to: nat)
    ensures RetriesRefused(client, maxRetries, from, to) ==> exists n: nat :: client.replies(n) == Refuse(true)
  {
    if first, last :| from <= first && last == first + Max(maxRetries, 0) + 1 <= to && AllRefused(client, first, last) {
      assert client.replies(first) == Refuse(true);
    }
  }

  /** Then no truncation and no error has an explanation. */
  lemma NothingExplains(client: Client, h: seq<EnhancedTransaction>, p: FetchWindowParams, from: nat, to: nat)
    requires Responds(client) && ValidParams(p)
    ensures Fits(client, h, p) ==> forall code :: !Explained(client, h, p, code, from, to)
    ensures forall e :: !ErrorExplained(client, p, e, from, to)
  {
    RetriesAreRefusals(client, p.maxRetries, from, to);
  }

  /** A provider that answers, and a window inside both caps, give the whole window. */
  lemma AnsweredFetchIsWhole(client: Client, h: seq<EnhancedTransaction>, p: FetchWindowParams, r: FetchWindowResult, err: Option<FetchError>, from: nat, to: nat)
    requires Responds(client) && Fits(client, h, p) && ValidParams(p)
    requires OutcomeExplained(client, h, p, r, err, from, to) && (err.None? ==> Faithful(h, p, r))
    ensures err.None? && !r.partial && r.transactions == Window(h, p.start, p.end)
  {
    NothingExplains(client, h, p, from, to);
  }

  /** Two complete results over adjacent windows join, newer first, into the one larger window. */
  lemma AdjacentFetches(h: seq<EnhancedTransaction>, p: FetchWindowParams, q: FetchWindowParams,
                        older: FetchWindowResult, newer: FetchWindowResult)
    requires NewestFirst(h) && p.start <= p.end == q.start <= q.end
    requires Faithful(h, p, older) && Faithful(h, q, newer) && !older.partial && !newer.partial
    ensures newer.transactions + older.transactions == Window(h, p.start, q.end)
    ensures NewestFirst(newer.transactions + older.transactions)
  {
    AdjacentWindows(h, p.start, p.end, q.end);
    WindowNewestFirst(h, p.start, q.end);
  }
}
