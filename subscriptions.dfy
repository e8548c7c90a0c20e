/**
 * The subscription endpoint of user_ticker_handler.py: a request adds or
 * removes one (user, ticker) row of the subscription table. The table is a
 * map from (user_id, ticker) to asset_type held by a `SubscriptionTable`
 * object; the decision the handler takes for a request is the pure function
 * `Route`, and its effect on the table is `Apply`.
 */
module Subscriptions {
  import opened Wrappers
  import opened Text

  const DefaultUser: string := "U001"
  const DefaultAssetType: string := "STOCK"

  /** The fields of the JSON body the handler reads; `None` is a missing field. */
  datatype Fields = Fields(userId: Option<string>, ticker: Option<string>, assetType: Option<string>)

  /**
   * The request body: missing, one the handler cannot read (not JSON, not an
   * object, or a ticker that is not a string), with the text of the error it
   * raises, or a JSON object.
   */
  datatype Body = NoBody | Malformed(error: string) | Json(fields: Fields)

  datatype Request = Request(httpMethod: Option<string>, body: Body)

  datatype Message = Empty | Added(ticker: string) | Removed(ticker: string) | TickerRequired | MethodNotAllowed | InternalError(error: string)

  datatype Response = Response(statusCode: int, message: Message)

  /** The text each response carries (the `message` or `error` of its JSON body). */
  function MessageText(m: Message): string
  {
    match m
    case Empty => ""
    case Added(t) => "Successfully added " + t
    case Removed(t) => "Successfully removed " + t
    case TickerRequired => "Ticker is required"
    case MethodNotAllowed => "Method Not Allowed"
    case InternalError(e) => e
  }

  /**
   * The success texts name the ticker, tell an addition from a removal, and
   * tell one ticker from another.
   */
  lemma SuccessTextsNameTicker(t: string, u: string)
    ensures EndsWith(MessageText(Added(t)), t) && EndsWith(MessageText(Removed(t)), t)
    ensures MessageText(Added(t)) != MessageText(Removed(u))
    ensures MessageText(Added(t)) == MessageText(Added(u)) <==> t == u
    ensures MessageText(Removed(t)) == MessageText(Removed(u)) <==> t == u
  {
    assert MessageText(Added(t))[13] == 'a' && MessageText(Removed(u))[13] == 'r';
  }

  /** A table key: (user_id, ticker). */
  type Key = (string, string)

  /** A missing body reads as `{}` (lines 27-28). */
  function FieldsOf(body: Body): Fields
  {
    match body
    case Json(f) => f
    case _ => Fields(None, None, None)
  }

  /** `user_id`, or "U001" when it is missing or empty (lines 32-34). */
  function EffectiveUser(userId: Option<string>): (u: string)
    ensures userId.None? || userId == Some("") ==> u == DefaultUser
    ensures userId.Some? && userId.value != "" ==> u == userId.value
    ensures u != ""
  {
    if userId.None? || userId.value == "" then DefaultUser else userId.value
  }

  /** `body.get("ticker", "").strip().upper()` (line 35). */
  function NormalizeTicker(ticker: Option<string>): string
  {
    Upper(Strip(ticker.GetOr("")))
  }

  /**
   * A normalised ticker has no surrounding whitespace and no lower-case
   * letter, and is empty exactly when the raw ticker is missing or all
   * whitespace.
   */
  lemma NormalizedShape(ticker: Option<string>)
    ensures var t := NormalizeTicker(ticker);
      && (t == [] || (!IsSpace(t[0]) && !IsSpace(t[|t| - 1])))
      && (forall i :: 0 <= i < |t| ==> !('a' <= t[i] <= 'z'))
      && (t == [] <==> AllSpace(ticker.GetOr("")))
  {
    var raw := ticker.GetOr("");
    UpperKeepsSpace(Strip(raw));
    StripEmptyIffAllSpace(raw);
  }

  /** A key the handler itself could have written: a non-empty user and a non-empty normalised ticker. */
  predicate WellFormedKey(k: Key)
  {
    k.0 != "" && k.1 != "" && NormalizeTicker(Some(k.1)) == k.1
  }

  predicate WellFormedStore(store: map<Key, string>)
  {
    forall k :: k in store ==> WellFormedKey(k)
  }

  /** Normalising a normalised ticker changes nothing. */
  lemma NormalizeIdempotent(ticker: Option<string>)
    ensures NormalizeTicker(Some(NormalizeTicker(ticker))) == NormalizeTicker(ticker)
  {
    var s := Strip(ticker.GetOr(""));
    var t := Upper(s);
    assert t == NormalizeTicker(ticker);
    assert t == [] || (!IsSpace(t[0]) && !IsSpace(t[|t| - 1])) by {
      UpperKeepsSpace(s);
    }
    StripOfTrimmed(t);
    UpperIdempotent(s);
  }

  /** What the handler decides to do with a request. */
  datatype Action = Preflight | Fault | BadRequest | Add(key: Key, assetType: string) | Remove(key: Key) | NotAllowed

  predicate IsOptions(req: Request)
  {
    req.httpMethod == Some("OPTIONS")
  }

  /**
   * The dispatch of lines 21-66, in its order: OPTIONS before the body is
   * read, an unreadable body, then the ticker check for every method, then
   * POST, DELETE and anything else.
   */
  function Route(req: Request): (a: Action)
    ensures a == Preflight <==> IsOptions(req)
    ensures a == Fault <==> !IsOptions(req) && req.body.Malformed?
    ensures a == BadRequest <==>
      !IsOptions(req) && !req.body.Malformed? && NormalizeTicker(FieldsOf(req.body).ticker) == ""
    ensures a.Add? <==>
      req.httpMethod == Some("POST") && !req.body.Malformed? && NormalizeTicker(FieldsOf(req.body).ticker) != ""
    ensures a.Remove? <==>
      req.httpMethod == Some("DELETE") && !req.body.Malformed? && NormalizeTicker(FieldsOf(req.body).ticker) != ""
    ensures a == NotAllowed <==>
      req.httpMethod !in {Some("OPTIONS"), Some("POST"), Some("DELETE")} && !req.body.Malformed?
      && NormalizeTicker(FieldsOf(req.body).ticker) != ""
    ensures (a.Add? || a.Remove?) ==>
      a.key == (EffectiveUser(FieldsOf(req.body).userId), NormalizeTicker(FieldsOf(req.body).ticker))
    ensures a.Add? ==> a.assetType == FieldsOf(req.body).assetType.GetOr(DefaultAssetType)
  {
    if IsOptions(req) then Preflight
    else if req.body.Malformed? then Fault
    else
      var fields := FieldsOf(req.body);
      var user := EffectiveUser(fields.userId);
      var ticker := NormalizeTicker(fields.ticker);
      if ticker == "" then BadRequest
      else if req.httpMethod == Some("POST") then Add((user, ticker), fields.assetType.GetOr(DefaultAssetType))
      else if req.httpMethod == Some("DELETE") then Remove((user, ticker))
      else NotAllowed
  }

  /** The status code each decision answers with. */
  function StatusOf(a: Action): int
  {
    match a
    case Preflight => 200
    case Fault => 500
    case BadRequest => 400
    case Add(_, _) => 200
    case Remove(_) => 200
    case NotAllowed => 405
  }

  /**
   * The table after the decision: `put_item` maps the key to the asset type,
   * `delete_item` removes it whether or not it was there, every other
   * decision leaves the table alone, and no other key ever changes.
   */
  function Apply(store: map<Key, string>, a: Action): (r: map<Key, string>)
    ensures a.Add? ==> a.key in r && r[a.key] == a.assetType
    ensures a.Remove? ==> a.key !in r
    ensures !a.Add? && !a.Remove? ==> r == store
    ensures forall k :: (a.Add? || a.Remove?) && k != a.key ==>
      (k in r <==> k in store) && (k in r ==> r[k] == store[k])
  {
    match a
    case Add(k, t) => store[k := t]
    case Remove(k) => store - {k}
    case _ => store
  }

  // ---------------------------------------------------------------------
  // Properties of the handler

  /** Each request keeps a table of well-formed keys well-formed. */
  lemma ApplyKeepsStoreWellFormed(store: map<Key, string>, req: Request)
    requires WellFormedStore(store)
    ensures WellFormedStore(Apply(store, Route(req)))
  {
    var a := Route(req);
    if a.Add? {
      NormalizeIdempotent(FieldsOf(req.body).ticker);
    }
  }

  /** Repeating a decision, and so a request, leaves the table as the first one did. */
  lemma ApplyIsIdempotent(store: map<Key, string>, a: Action)
    ensures Apply(Apply(store, a), a) == Apply(store, a)
  {
    var once := Apply(store, a);
    assert Apply(once, a).Keys == once.Keys;
  }

  /** Adding a key that was absent and then removing it gives back the table. */
  lemma AddThenRemoveRestores(store: map<Key, string>, key: Key, assetType: string)
    requires key !in store
    ensures Apply(Apply(store, Add(key, assetType)), Remove(key)) == store
  {
    assert Apply(Apply(store, Add(key, assetType)), Remove(key)).Keys == store.Keys;
  }

  /** Removing a subscription that does not exist still succeeds and changes nothing. */
  lemma RemoveAbsentIsNoOp(store: map<Key, string>, req: Request)
    requires Route(req).Remove? && Route(req).key !in store
    ensures Apply(store, Route(req)) == store && StatusOf(Route(req)) == 200
  {
    assert Apply(store, Route(req)).Keys == store.Keys;
  }

  /** A request with an empty or blank ticker is refused with 400 whatever its method, unless it is OPTIONS. */
  lemma BlankTickerIsRefused(m: Option<string>, user: Option<string>, blank: string, assetType: Option<string>)
    requires m != Some("OPTIONS") && AllSpace(blank)
    ensures var a := Route(Request(m, Json(Fields(user, Some(blank), assetType))));
      a == BadRequest && StatusOf(a) == 400
  {
  }

  /** " aapl " normalises to "AAPL". */
  lemma NormalizeExample(raw: string)
    requires raw == " aapl "
    ensures NormalizeTicker(Some(raw)) == "AAPL"
  {
    StripExample(raw);
    UpperExample(raw[1..5]);
  }

  lemma StripExample(raw: string)
    requires raw == " aapl "
    ensures Strip(raw) == raw[1..5]
  {
    var inner := raw[1..];
    var word := inner[..4];
    assert TrimStart(raw) == inner by {
      assert IsSpace(raw[0]) && !IsSpace(inner[0]);
    }
    assert TrimEnd(inner) == word by {
      assert IsSpace(inner[4]) && !IsSpace(word[3]);
      assert inner[..|inner| - 1] == word;
    }
    assert word == raw[1..5];
    StripIsTrimmed(raw);
  }

  lemma UpperExample(word: string)
    requires word == "aapl"
    ensures Upper(word) == "AAPL"
  {
  }

  /** A POST of " aapl " with no user and no asset type stores ("U001", "AAPL") as a STOCK. */
  lemma PostExample(raw: string)
    requires raw == " aapl "
    ensures var a := Route(Request(Some("POST"), Json(Fields(None, Some(raw), None))));
      a == Add(("U001", "AAPL"), "STOCK") && StatusOf(a) == 200
  {
    NormalizeExample(raw);
  }

  // ---------------------------------------------------------------------
  // The table and the handler

  class SubscriptionTable {
    var items: map<Key, string>

    constructor (initial: map<Key, string>)
      ensures items == initial
    {
      items := initial;
    }

    /** `table.put_item`: the row for `key` now holds `assetType`; every other row is unchanged. */
    method Put(key: Key, assetType: string)
      modifies this
      ensures items == old(items)[key := assetType]
    {
      items := items[key := assetType];
    }

    /** `table.delete_item`: no row for `key` remains, present before or not; every other row is unchanged. */
    method Delete(key: Key)
      modifies this
      ensures items == old(items) - {key}
    {
      items := items - {key};
    }

    /** `lambda_handler` of user_ticker_handler.py against this table. */
    method Handle(req: Request) returns (resp: Response)
      modifies this
      ensures resp.statusCode == StatusOf(Route(req))
      ensures items == Apply(old(items), Route(req))
      ensures IsOptions(req) ==> resp == Response(200, Empty)
      ensures Route(req).Add? ==> resp.message == Added(Route(req).key.1)
      ensures Route(req).Remove? ==> resp.message == Removed(Route(req).key.1)
      ensures Route(req) == Fault ==> resp.message == InternalError(req.body.error)
      ensures Route(req) == BadRequest ==> resp.message == TickerRequired
      ensures Route(req) == NotAllowed ==> resp.message == MethodNotAllowed
    {
      if req.httpMethod == Some("OPTIONS") {
        return Response(200, Empty);
      }
      if req.body.Malformed? {
        return Response(500, InternalError(req.body.error));
      }
      var body := FieldsOf(req.body);
      var userId := EffectiveUser(body.userId);
      var ticker := NormalizeTicker(body.ticker);
      if ticker == "" {
        return Response(400, TickerRequired);
      }
      if req.httpMethod == Some("POST") {
        Put((userId, ticker), body.assetType.GetOr(DefaultAssetType));
        return Response(200, Added(ticker));
      } else if req.httpMethod == Some("DELETE") {
        Delete((userId, ticker));
        return Response(200, Removed(ticker));
      } else {
        return Response(405, MethodNotAllowed);
      }
    }
  }

  /** A client of the table: adding and then removing a new subscription restores the table. */
  method AddThenRemove(table: SubscriptionTable, user: string, ticker: string)
    requires ticker != "" && NormalizeTicker(Some(ticker)) == ticker && (EffectiveUser(Some(user)), ticker) !in table.items
    modifies table
    ensures table.items == old(table.items)
  {
    var fields := Fields(Some(user), Some(ticker), None);
    var key := (EffectiveUser(Some(user)), ticker);
    var post := Request(Some("POST"), Json(fields));
    var delete := Request(Some("DELETE"), Json(fields));
    assert Route(post) == Add(key, DefaultAssetType);
    assert Route(delete) == Remove(key);
    AddThenRemoveRestores(table.items, key, DefaultAssetType);
    var added := table.Handle(post);
    var removed := table.Handle(delete);
  }
}
