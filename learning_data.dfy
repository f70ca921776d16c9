/**
 * The learning-data hook. For the connected account it reads the ids of its
 * content records from the registry contract, reads each record, and for a
 * processed record fetches its flashcards and quiz from the IPFS gateway and
 * builds its audio URL; the list it exposes is newest first. It also submits
 * a new content URL to the contract.
 *
 * The contract and the gateway are inputs: a `Ledger` gives the outcome of
 * each contract read, a `Fetch` the outcome of fetching and parsing a URL.
 */
module LearningData {
  import opened Wrappers

  /** A JSON value as `response.json()` returns it (numbers kept as integers). */
  datatype Json =
    | JNull
    | JBool(b: bool)
    | JNumber(n: int)
    | JString(s: string)
    | JArray(elements: seq<Json>)
    | JObject(members: seq<(string, Json)>)

  /** A record as the contract's `getContent` returns it; an empty CID is an unset one. */
  datatype ContentRecord = ContentRecord(
    sourceURI: string,
    flashcardsCID: string,
    quizCID: string,
    audioCID: string,
    timestamp: nat,
    processed: bool)

  /** A record as the hook exposes it. */
  datatype LearningItem = LearningItem(
    id: string,
    sourceURI: string,
    flashcards: Json,
    quiz: Json,
    audio: string,
    timestamp: nat,
    processed: bool)

  /** The outcomes of the contract's read calls: `None` is a call that throws. */
  datatype Ledger = Ledger(
    userContentIds: string -> Option<seq<string>>,
    getContent: string -> Option<ContentRecord>)

  /** `fetch(url)` followed by `.json()`: the parsed body, or `None` when either throws. */
  type Fetch = string -> Option<Json>

  const IpfsGateway: string := "https://ipfs.io/ipfs/"

  const LoadFailed: string := "Failed to load learning data"

  const WalletNotConnected: string := "Wallet not connected"

  /** The gateway URL of a content id. */
  function IpfsUrl(cid: string): (url: string)
    ensures |url| == |IpfsGateway| + |cid|
    ensures url[..|IpfsGateway|] == IpfsGateway && url[|IpfsGateway|..] == cid
  {
    IpfsGateway + cid
  }

  // ---------------------------------------------------------------------
  // One record.

  /** The three auxiliary fields of an item. */
  datatype Aux = Aux(flashcards: Json, quiz: Json, audio: string)

  /** Their initial values: `[]`, `{}` and `''`. */
  function Defaults(): Aux {
    Aux(JArray([]), JObject([]), "")
  }

  /** The flashcards step does not throw: no CID, or the fetch succeeds. */
  predicate FlashcardsStepOk(record: ContentRecord, fetch: Fetch) {
    record.flashcardsCID == "" || fetch(IpfsUrl(record.flashcardsCID)).Some?
  }

  /** The quiz step does not throw: no CID, or the fetch succeeds. */
  predicate QuizStepOk(record: ContentRecord, fetch: Fetch) {
    record.quizCID == "" || fetch(IpfsUrl(record.quizCID)).Some?
  }

  /**
   * The auxiliary fields of a record. Nothing is fetched for an unprocessed
   * record. For a processed one the flashcards, the quiz and the audio URL
   * are filled in that order, each only when its CID is set; the first fetch
   * that throws ends the sequence, keeping what was filled before it.
   */
  function FetchAux(record: ContentRecord, fetch: Fetch): (r: Aux)
    ensures !record.processed ==> r == Defaults()
    ensures r.flashcards ==
      if record.processed && record.flashcardsCID != "" && fetch(IpfsUrl(record.flashcardsCID)).Some?
      then fetch(IpfsUrl(record.flashcardsCID)).value
      else JArray([])
    ensures r.quiz ==
      if record.processed && FlashcardsStepOk(record, fetch)
         && record.quizCID != "" && fetch(IpfsUrl(record.quizCID)).Some?
      then fetch(IpfsUrl(record.quizCID)).value
      else JObject([])
    ensures r.audio ==
      if record.processed && FlashcardsStepOk(record, fetch) && QuizStepOk(record, fetch)
         && record.audioCID != ""
      then IpfsGateway + record.audioCID
      else ""
  {
    if !record.processed then Defaults()
    else
      var flashcards :=
        if record.flashcardsCID == "" then Some(JArray([])) else fetch(IpfsUrl(record.flashcardsCID));
      match flashcards
      case None => Defaults()
      case Some(cards) =>
        var quiz := if record.quizCID == "" then Some(JObject([])) else fetch(IpfsUrl(record.quizCID));
        match quiz
        case None => Aux(cards, JObject([]), "")
        case Some(q) => Aux(cards, q, if record.audioCID == "" then "" else IpfsUrl(record.audioCID))
  }

  /** The item built for one id and its record. */
  function Materialise(id: string, record: ContentRecord, fetch: Fetch): (item: LearningItem)
    ensures item.id == id && item.sourceURI == record.sourceURI
    ensures item.timestamp == record.timestamp && item.processed == record.processed
    ensures Aux(item.flashcards, item.quiz, item.audio) == FetchAux(record, fetch)
  {
    var aux := FetchAux(record, fetch);
    LearningItem(id, record.sourceURI, aux.flashcards, aux.quiz, aux.audio, record.timestamp, record.processed)
  }

  /** An unprocessed record never exposes flashcards, a quiz or audio. */
  lemma UnprocessedHasNoContent(id: string, record: ContentRecord, fetch: Fetch)
    requires !record.processed
    ensures var item := Materialise(id, record, fetch);
      item.flashcards == JArray([]) && item.quiz == JObject([]) && item.audio == ""
  {
  }

  /**
   * A failing flashcards fetch leaves every field at its default; a failing
   * quiz fetch keeps the flashcards already fetched and leaves the quiz and
   * the audio at their defaults. The item is produced either way.
   */
  lemma FetchFailureKeepsEarlierFields(record: ContentRecord, fetch: Fetch)
    requires record.processed
    ensures !FlashcardsStepOk(record, fetch) ==> FetchAux(record, fetch) == Defaults()
    ensures FlashcardsStepOk(record, fetch) && !QuizStepOk(record, fetch) ==>
      FetchAux(record, fetch) ==
        Aux(if record.flashcardsCID == "" then JArray([]) else fetch(IpfsUrl(record.flashcardsCID)).value,
            JObject([]), "")
  {
  }

  /** With both fetches working, every set CID fills its field. */
  lemma AllFetchesSucceed(record: ContentRecord, fetch: Fetch)
    requires record.processed && FlashcardsStepOk(record, fetch) && QuizStepOk(record, fetch)
    ensures record.flashcardsCID != "" ==> FetchAux(record, fetch).flashcards == fetch(IpfsUrl(record.flashcardsCID)).value
    ensures record.quizCID != "" ==> FetchAux(record, fetch).quiz == fetch(IpfsUrl(record.quizCID)).value
    ensures record.audioCID != "" ==> FetchAux(record, fetch).audio == IpfsUrl(record.audioCID)
  {
  }

  // ---------------------------------------------------------------------
  // All records.

  /**
   * The items of `ids`, in the same order (`Promise.all` over `ids.map`):
   * `None` when reading any one record throws.
   */
  function MaterialiseAll(ids: seq<string>, ledger: Ledger, fetch: Fetch): (r: Option<seq<LearningItem>>)
    ensures r.None? <==> exists i :: 0 <= i < |ids| && ledger.getContent(ids[i]).None?
    ensures r.Some? ==> |r.value| == |ids|
    ensures r.Some? ==> forall i :: 0 <= i < |ids| ==>
      ledger.getContent(ids[i]).Some? && r.value[i] == Materialise(ids[i], ledger.getContent(ids[i]).value, fetch)
  {
    if ids == [] then Some([])
    else
      match ledger.getContent(ids[0])
      case None => None
      case Some(record) =>
        match MaterialiseAll(ids[1..], ledger, fetch)
        case None =>
          assert exists i :: 0 <= i < |ids[1..]| && ledger.getContent(ids[1..][i]).None?;
          None
        case Some(rest) =>
          Some([Materialise(ids[0], record, fetch)] + rest)
  }

  /** `results.reverse()`. */
  function Reverse<T>(s: seq<T>): (r: seq<T>)
    ensures |r| == |s|
    ensures forall i :: 0 <= i < |s| ==> r[i] == s[|s| - 1 - i]
  {
    if s == [] then [] else Reverse(s[1..]) + [s[0]]
  }

  /** The body of the load: the new item list, or `None` when a contract read throws. */
  function LoadResult(address: string, ledger: Ledger, fetch: Fetch): (r: Option<seq<LearningItem>>)
    ensures ledger.userContentIds(address).None? ==> r.None?
    ensures r.Some? ==> ledger.userContentIds(address).Some? && |r.value| == |ledger.userContentIds(address).value|
  {
    match ledger.userContentIds(address)
    case None => None
    case Some(ids) =>
      match MaterialiseAll(ids, ledger, fetch)
      case None => None
      case Some(results) => Some(Reverse(results))
  }

  /**
   * A load succeeds exactly when the id list and every record can be read,
   * and then lists one item per id, the last id first.
   */
  lemma LoadNewestFirst(address: string, ledger: Ledger, fetch: Fetch)
    ensures LoadResult(address, ledger, fetch).Some? <==>
      ledger.userContentIds(address).Some?
      && forall i :: 0 <= i < |ledger.userContentIds(address).value| ==>
           ledger.getContent(ledger.userContentIds(address).value[i]).Some?
    ensures LoadResult(address, ledger, fetch).Some? ==>
      var ids := ledger.userContentIds(address).value;
      var items := LoadResult(address, ledger, fetch).value;
      && |items| == |ids|
      && forall k :: 0 <= k < |ids| ==>
           var id := ids[|ids| - 1 - k];
           items[k] == Materialise(id, ledger.getContent(id).value, fetch)
  {
  }

  /** An account without records loads as an empty list, not as a failure. */
  lemma NoRecordsLoadsEmpty(address: string, ledger: Ledger, fetch: Fetch)
    requires ledger.userContentIds(address) == Some([])
    ensures LoadResult(address, ledger, fetch) == Some([])
  {
  }

  /** Every loaded item that is not processed has empty flashcards, quiz and audio. */
  lemma LoadedUnprocessedAreEmpty(address: string, ledger: Ledger, fetch: Fetch)
    requires LoadResult(address, ledger, fetch).Some?
    ensures forall item :: item in LoadResult(address, ledger, fetch).value && !item.processed ==>
      item.flashcards == JArray([]) && item.quiz == JObject([]) && item.audio == ""
  {
  }

  // ---------------------------------------------------------------------
  // The wallet and submission.

  /** What `useCelo` supplies: the account address, if any, and whether the kit is there. */
  datatype Wallet = Wallet(address: Option<string>, hasKit: bool)

  /** `address && kit`: an empty address counts as none. */
  predicate Connected(w: Wallet) {
    w.address.Some? && w.address.value != "" && w.hasKit
  }

  datatype Receipt = Receipt(transactionHash: string)

  /** A contract call the hook issues. */
  datatype ContractCall = SubmitContentCall(sourceURI: string, from: string)

  /** The outcome of `submitContent(sourceURI).send({from})`: the receipt, or the error thrown. */
  type Send = (string, string) -> Result<Receipt, string>

  /** The calls a submission issued and what it returned or threw. */
  datatype SubmitAttempt = SubmitAttempt(calls: seq<ContractCall>, outcome: Result<Receipt, string>)

  /**
   * submitContent: without a wallet it throws "Wallet not connected" and
   * calls nothing; otherwise it makes one call from the account and returns
   * its receipt or rethrows its error unchanged.
   */
  function SubmitContent(wallet: Wallet, sourceURI: string, send: Send): (r: SubmitAttempt)
    ensures !Connected(wallet) ==> r.calls == [] && r.outcome == Err(WalletNotConnected)
    ensures Connected(wallet) ==>
      r.calls == [SubmitContentCall(sourceURI, wallet.address.value)]
      && r.outcome == send(sourceURI, wallet.address.value)
  {
    if !Connected(wallet) then SubmitAttempt([], Err(WalletNotConnected))
    else
      var from := wallet.address.value;
      SubmitAttempt([SubmitContentCall(sourceURI, from)], send(sourceURI, from))
  }

  /** A submission reaches the contract exactly when a wallet is connected, and at most once. */
  lemma SubmitCallsIffConnected(wallet: Wallet, sourceURI: string, send: Send)
    ensures var r := SubmitContent(wallet, sourceURI, send);
      (r.calls != [] <==> Connected(wallet)) && |r.calls| <= 1
  {
  }

  // ---------------------------------------------------------------------
  // The hook's state.

  class LearningStore {
    var items: seq<LearningItem>
    var loading: bool
    var error: Option<string>

    constructor ()
      ensures items == [] && !loading && error == None
    {
      items := [];
      loading := false;
      error := None;
    }

    /**
     * One run of the load effect. Without a wallet it does nothing.
     * Otherwise it sets `loading` and clears `error`, then either replaces
     * the items by the loaded list or, when a contract read throws, keeps
     * them and records the failure; `loading` is cleared either way.
     */
    method LoadUserContent(wallet: Wallet, ledger: Ledger, fetch: Fetch)
      modifies this
      ensures !Connected(wallet) ==> items == old(items) && loading == old(loading) && error == old(error)
      ensures Connected(wallet) ==> !loading
      ensures Connected(wallet) ==>
        match LoadResult(wallet.address.value, ledger, fetch)
        case Some(loaded) => items == loaded && error == None
        case None => items == old(items) && error == Some(LoadFailed)
    {
      if !Connected(wallet) {
        return;
      }
      loading := true;
      error := None;
      var outcome := LoadResult(wallet.address.value, ledger, fetch);
      match outcome {
        case Some(loaded) =>
          items := loaded;
        case None =>
          error := Some(LoadFailed);
      }
      loading := false;
    }
  }
}
