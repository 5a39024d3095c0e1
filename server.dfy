/**
 * The webhook side of the chat server: the document store as a class holding one
 * document per client id, the three cart operations as methods on it, and the
 * dispatcher that turns one incoming messaging event into one of them.
 */
module Server {
  import opened Wrappers
  import opened Numerals
  import opened Replies
  import opened Carts

  /** `find_one({'client_id': id})`. */
  function Lookup(docs: map<string, Client>, clientId: string): Option<Client> {
    if clientId in docs then Some(docs[clientId]) else None
  }

  /** The store after writing `doc` as the client's document, `None` meaning none is kept. */
  function Put(docs: map<string, Client>, clientId: string, doc: Option<Client>): (r: map<string, Client>)
    ensures Lookup(r, clientId) == doc
    ensures forall other :: other != clientId ==> Lookup(r, other) == Lookup(docs, other)
  {
    if doc.Some? then docs[clientId := doc.value] else docs - {clientId}
  }

  /** Every document in the store is well-formed. */
  predicate AllWellFormed(docs: map<string, Client>) {
    forall id :: id in docs ==> WellFormed(docs[id])
  }

  /** The `message` part of an event: the payload of a tapped quick reply and the typed text, when present. */
  datatype Message = Message(quickReply: Option<string>, text: Option<string>)

  /** One entry of `entry[0].messaging`: a postback payload and a message, when present. */
  datatype Event = Event(postback: Option<string>, message: Option<Message>)

  /** Why handling an event raises instead of answering. */
  datatype Fault =
    | NoMessage        // neither a postback nor a message: `messaging_section['message']` raises KeyError
    | BadPayload       // the quick-reply payload does not end in an integer: `int()` raises ValueError
    | NoRecord         // removal by position for a client without a document
    | IndexOutOfRange  // removal by position past the end of the list

  /** What the dispatcher decides to do with an event. */
  datatype Action =
    | StartAction
    | HelpAction
    | ShowAction
    | RemoveAction(selector: int)
    | AddAction(itemName: string)
    | Ignore
    | Abort(fault: Fault)

  /** `int(payload.split(',')[-1])`. */
  function ParsePayload(payload: string): Option<int> {
    ParseInt(LastField(payload, ','))
  }

  /**
   * The branches of the webhook handler, first match wins: a postback, then a
   * tapped quick reply, then typed text.
   */
  function Classify(ev: Event): (a: Action)
  {
    match ev.postback
    case Some(payload) =>
      if payload == "GET_STARTED" then StartAction
      else if payload == "SHOW_HELP" then HelpAction
      else if payload == "SHOW_SHOPPING_CART" then ShowAction
      else Ignore
    case None =>
      match ev.message
      case None => Abort(NoMessage)
      case Some(m) =>
        if m.quickReply.Some? then
          match ParsePayload(m.quickReply.value)
          case Some(idx) => RemoveAction(idx)
          case None => Abort(BadPayload)
        else if m.text.Some? then AddAction(m.text.value)
        else Ignore
  }

  /** The store afterwards and the reply sent (`None`: nothing sent), or the fault that aborted the request. */
  datatype Handled = Handled(docs: map<string, Client>, result: Result<Option<Reply>, Fault>)

  /** `handleIncomingPostEvents` for client `clientId`, whose profile name is `clientName`. */
  function Respond(docs: map<string, Client>, clientId: string, clientName: string, ev: Event): (h: Handled) {
    Perform(docs, clientId, clientName, Classify(ev))
  }

  /** Runs the operation the dispatcher chose. */
  function Perform(docs: map<string, Client>, clientId: string, clientName: string, a: Action): (h: Handled) {
    match a
    case StartAction => Handled(docs, Ok(Some(Buttons(GetStarted))))
    case HelpAction => Handled(docs, Ok(Some(Buttons(Help))))
    case ShowAction => Handled(docs, Ok(Some(Show(Lookup(docs, clientId)))))
    case RemoveAction(idx) =>
      if idx >= 0 && clientId !in docs then Handled(docs, Err(NoRecord))
      else if idx >= 0 && idx >= |docs[clientId].cart| then Handled(docs, Err(IndexOutOfRange))
      else
        var o := Remove(Lookup(docs, clientId), idx);
        Handled(Put(docs, clientId, o.doc), Ok(o.reply))
    case AddAction(itemName) =>
      var a := Add(Lookup(docs, clientId), clientName, itemName);
      Handled(docs[clientId := a.client], Ok(Some(a.reply)))
    case Ignore => Handled(docs, Ok(None))
    case Abort(fault) => Handled(docs, Err(fault))
  }

  /** A postback always wins over a message; only the three known payloads do anything. */
  lemma PostbackFirst(ev: Event)
    requires ev.postback.Some?
    ensures var a := Classify(ev);
            && (a == StartAction <==> ev.postback.value == "GET_STARTED")
            && (a == HelpAction <==> ev.postback.value == "SHOW_HELP")
            && (a == ShowAction <==> ev.postback.value == "SHOW_SHOPPING_CART")
            && (a == Ignore <==> ev.postback.value !in {"GET_STARTED", "SHOW_HELP", "SHOW_SHOPPING_CART"})
  {
  }

  /** Without a postback, a tapped quick reply wins over text: it is parsed into a removal selector or aborts. */
  lemma QuickReplyBeforeText(ev: Event)
    requires ev.postback.None? && ev.message.Some? && ev.message.value.quickReply.Some?
    ensures var p := ParsePayload(ev.message.value.quickReply.value);
            Classify(ev) == if p.Some? then RemoveAction(p.value) else Abort(BadPayload)
  {
  }

  /** Typed text becomes an add exactly when there is no postback and no tapped quick reply. */
  lemma TextMeansAdd(ev: Event, itemName: string)
    ensures Classify(ev) == AddAction(itemName) <==>
              && ev.postback.None? && ev.message.Some? && ev.message.value.quickReply.None?
              && ev.message.value.text == Some(itemName)
  {
  }

  /**
   * Handling an event touches at most the sender's document; postbacks and
   * aborted requests touch nothing.
   */
  lemma RespondFrame(docs: map<string, Client>, clientId: string, clientName: string, ev: Event)
    ensures var h := Respond(docs, clientId, clientName, ev);
            && (forall other :: other != clientId ==> Lookup(h.docs, other) == Lookup(docs, other))
            && (ev.postback.Some? ==> h.docs == docs && h.result.Ok?)
            && (h.result.Err? ==> h.docs == docs)
  {
    var h := Respond(docs, clientId, clientName, ev);
    match Classify(ev)
    case RemoveAction(idx) =>
      if !(idx >= 0 && clientId !in docs) && !(idx >= 0 && idx >= |docs[clientId].cart|) {
        var o := Remove(Lookup(docs, clientId), idx);
        assert h.docs == Put(docs, clientId, o.doc);
      }
    case AddAction(itemName) =>
      var a := Add(Lookup(docs, clientId), clientName, itemName);
      assert h.docs == docs[clientId := a.client];
    case _ =>
      assert h.docs == docs;
  }

  /** `REMOVE_ITEM,<i>` parses back to `i`, for every selector `i`. */
  lemma RemovePayloadRoundTrip(selector: int)
    ensures ParsePayload(RemovePayload(selector)) == Some(selector)
  {
    var field := IntToString(selector);
    assert "REMOVE_ITEM," + field == "REMOVE_ITEM" + [','] + field;
    LastFieldAfterSeparator("REMOVE_ITEM", ',', field);
    ParseIntOfIntToString(selector);
  }

  /**
   * Every quick reply of a listing parses back to the selector it stands for:
   * its position for the per-item options, -1 for "all", -2 for "none".
   */
  lemma ShowOptionsRoundTrip(doc: Option<Client>, k: nat)
    requires Show(doc).QuickReplies? && k < |Show(doc).options|
    ensures var n := |Cart(doc)|;
            ParsePayload(Show(doc).options[k].payload) == Some(if k < n then k else if k == n then -1 else -2)
  {
    var n := |Cart(doc)|;
    var selector := if k < n then k else if k == n then -1 else -2;
    assert Show(doc).options[k].payload == RemovePayload(selector) by {
      ShowOptions(doc);
    }
    RemovePayloadRoundTrip(selector);
  }

  /** An event the dispatcher reads as removal selector `selector` runs the removal on the sender's document. */
  lemma RespondRemoves(docs: map<string, Client>, clientId: string, clientName: string, ev: Event, selector: int)
    requires Classify(ev) == RemoveAction(selector)
    requires selector >= 0 ==> clientId in docs && selector < |docs[clientId].cart|
    ensures var o := Remove(Lookup(docs, clientId), selector);
            Respond(docs, clientId, clientName, ev) == Handled(Put(docs, clientId, o.doc), Ok(o.reply))
  {
  }

  /** The event sent when the client taps option `k` of their listing. */
  function TapEvent(docs: map<string, Client>, clientId: string, k: nat, text: Option<string>): Event
    requires Show(Lookup(docs, clientId)).QuickReplies? && k < |Show(Lookup(docs, clientId)).options|
  {
    Event(None, Some(Message(Some(Show(Lookup(docs, clientId)).options[k].payload), text)))
  }

  /** Tapping a listed option removes by the selector the option stands for. */
  lemma TapRemoves(docs: map<string, Client>, clientId: string, clientName: string, k: nat, text: Option<string>)
    requires clientId in docs
    requires Show(Lookup(docs, clientId)).QuickReplies? && k < |Show(Lookup(docs, clientId)).options|
    ensures var n := |docs[clientId].cart|;
            var o := Remove(Lookup(docs, clientId), if k < n then k else if k == n then -1 else -2);
            Respond(docs, clientId, clientName, TapEvent(docs, clientId, k, text))
            == Handled(Put(docs, clientId, o.doc), Ok(o.reply))
  {
    var doc := Lookup(docs, clientId);
    var n := |docs[clientId].cart|;
    var selector := if k < n then k else if k == n then -1 else -2;
    var ev := TapEvent(docs, clientId, k, text);
    assert Classify(ev) == RemoveAction(selector) by {
      ShowOptionsRoundTrip(doc, k);
      QuickReplyBeforeText(ev);
    }
    RespondRemoves(docs, clientId, clientName, ev, selector);
  }

  /** Tapping the option of item `k` pulls that item from the sender's list and names it. */
  lemma TapItemOption(docs: map<string, Client>, clientId: string, clientName: string, k: nat, text: Option<string>)
    requires clientId in docs && k < |docs[clientId].cart|
    ensures Show(Lookup(docs, clientId)).QuickReplies? && k < |Show(Lookup(docs, clientId)).options|
    ensures var c := docs[clientId];
            Respond(docs, clientId, clientName, TapEvent(docs, clientId, k, text))
            == Handled(docs[clientId := c.(cart := Pull(c.cart, c.cart[k]))], Ok(Some(Buttons(RemovedOne(c.cart[k])))))
  {
    ShowOptions(Lookup(docs, clientId));
    TapRemoves(docs, clientId, clientName, k, text);
  }

  /** Tapping "all" empties the sender's list. */
  lemma TapAllOption(docs: map<string, Client>, clientId: string, clientName: string, text: Option<string>)
    requires clientId in docs && docs[clientId].cart != []
    ensures var n := |docs[clientId].cart|;
            Show(Lookup(docs, clientId)).QuickReplies? && n < |Show(Lookup(docs, clientId)).options|
    ensures var c := docs[clientId];
            Respond(docs, clientId, clientName, TapEvent(docs, clientId, |c.cart|, text))
            == Handled(docs[clientId := c.(cart := [])], Ok(Some(Buttons(RemovedAll))))
  {
    ShowOptions(Lookup(docs, clientId));
    TapRemoves(docs, clientId, clientName, |docs[clientId].cart|, text);
  }

  /** Tapping "none" only answers. */
  lemma TapNoneOption(docs: map<string, Client>, clientId: string, clientName: string, text: Option<string>)
    requires clientId in docs && docs[clientId].cart != []
    ensures var n := |docs[clientId].cart|;
            Show(Lookup(docs, clientId)).QuickReplies? && n + 1 < |Show(Lookup(docs, clientId)).options|
    ensures Respond(docs, clientId, clientName, TapEvent(docs, clientId, |docs[clientId].cart| + 1, text))
            == Handled(docs, Ok(Some(Buttons(RemovedNone))))
  {
    ShowOptions(Lookup(docs, clientId));
    TapRemoves(docs, clientId, clientName, |docs[clientId].cart| + 1, text);
    RemoveNegativeKeepsStore(docs, clientId, -2);
  }

  /**
   * A selector below -1 writes nothing back: the store stays as it was, and only
   * -2 is answered.
   */
  lemma RemoveNegativeKeepsStore(docs: map<string, Client>, clientId: string, selector: int)
    requires selector < -1
    ensures Put(docs, clientId, Remove(Lookup(docs, clientId), selector).doc) == docs
    ensures Remove(Lookup(docs, clientId), selector).reply
            == if selector == -2 then Some(Buttons(RemovedNone)) else None
  {
    if clientId in docs {
      assert docs[clientId := docs[clientId]] == docs;
    }
  }

  /** The postback buttons sent under every canned text lead to the listing and the help text. */
  lemma ButtonGroupRoutes(m: Option<Message>)
    ensures Classify(Event(Some(ButtonGroup[0].payload), m)) == ShowAction
    ensures Classify(Event(Some(ButtonGroup[1].payload), m)) == HelpAction
  {
  }

  /** Handling any event keeps every document well-formed. */
  lemma RespondKeepsWellFormed(docs: map<string, Client>, clientId: string, clientName: string, ev: Event)
    requires AllWellFormed(docs)
    ensures AllWellFormed(Respond(docs, clientId, clientName, ev).docs)
  {
    match Classify(ev)
    case RemoveAction(idx) =>
      if !(idx >= 0 && clientId !in docs) && !(idx >= 0 && idx >= |docs[clientId].cart|) {
        RemoveKeepsWellFormed(Lookup(docs, clientId), idx);
      }
    case AddAction(itemName) =>
      AddKeepsWellFormed(Lookup(docs, clientId), clientName, itemName);
    case _ =>
  }

  /** Typed text without a postback or quick reply adds the text as an item. */
  lemma RespondText(docs: map<string, Client>, clientId: string, clientName: string, text: string)
    ensures var a := Add(Lookup(docs, clientId), clientName, text);
            Respond(docs, clientId, clientName, Event(None, Some(Message(None, Some(text)))))
            == Handled(docs[clientId := a.client], Ok(Some(a.reply)))
  {
  }

  /** The list button shows the sender's list and changes nothing. */
  lemma RespondShowButton(docs: map<string, Client>, clientId: string, clientName: string, m: Option<Message>)
    ensures Respond(docs, clientId, clientName, Event(Some("SHOW_SHOPPING_CART"), m))
            == Handled(docs, Ok(Some(Show(Lookup(docs, clientId)))))
  {
  }

  /** The listing of a cart holding only "shoes". */
  lemma ShoesListing(clientName: string)
    ensures Show(Some(Client(clientName, ["shoes"])))
            == QuickReplies(CartHead + "1. shoes\n", [ItemOption(0), AllOption, NoneOption])
  {
    assert NatToString(1) == "1";
    assert Line(1, "shoes") == "1" + ". " + "shoes" + "\n" == "1. shoes\n";
    assert Lines(["shoes"])[0] == Line(1, "shoes");
    assert Lines(["shoes"]) == ["1. shoes\n"];
    ConcatSingle("1. shoes\n");
    assert ItemOptions(["shoes"]) == [ItemOption(0)];
  }

  /**
   * A new client types "shoes", opens the list, taps its first option and opens
   * the list again.
   */
  lemma ShoesScenario(docs: map<string, Client>, clientName: string)
    requires "U1" !in docs
    ensures var h1 := Respond(docs, "U1", clientName, Event(None, Some(Message(None, Some("shoes")))));
            && h1.result == Ok(Some(Buttons(AddSuccess("shoes", 1))))
            && var h2 := Respond(h1.docs, "U1", clientName, Event(Some("SHOW_SHOPPING_CART"), None));
            && h2.result == Ok(Some(QuickReplies(CartHead + "1. shoes\n", [ItemOption(0), AllOption, NoneOption])))
            && var h3 := Respond(h2.docs, "U1", clientName, Event(None, Some(Message(Some("REMOVE_ITEM,0"), None))));
            && h3.result == Ok(Some(Buttons(RemovedOne("shoes"))))
            && Respond(h3.docs, "U1", clientName, Event(Some("SHOW_SHOPPING_CART"), None)).result
               == Ok(Some(Buttons(CartEmpty)))
  {
    var shoes := Client(clientName, ["shoes"]);
    var docs1 := docs["U1" := shoes];
    var h1 := Respond(docs, "U1", clientName, Event(None, Some(Message(None, Some("shoes")))));
    assert h1 == Handled(docs1, Ok(Some(Buttons(AddSuccess("shoes", 1))))) by {
      RespondText(docs, "U1", clientName, "shoes");
    }

    var h2 := Respond(docs1, "U1", clientName, Event(Some("SHOW_SHOPPING_CART"), None));
    assert h2 == Handled(docs1, Ok(Some(QuickReplies(CartHead + "1. shoes\n", [ItemOption(0), AllOption, NoneOption])))) by {
      RespondShowButton(docs1, "U1", clientName, None);
      ShoesListing(clientName);
    }

    var ev3 := Event(None, Some(Message(Some("REMOVE_ITEM,0"), None)));
    var emptied := Client(clientName, []);
    var docs3 := docs1["U1" := emptied];
    assert Classify(ev3) == RemoveAction(0) by {
      assert RemovePayload(0) == "REMOVE_ITEM,0" by {
        assert NatToString(0) == "0";
      }
      RemovePayloadRoundTrip(0);
      QuickReplyBeforeText(ev3);
    }
    var h3 := Respond(docs1, "U1", clientName, ev3);
    assert h3 == Handled(docs3, Ok(Some(Buttons(RemovedOne("shoes"))))) by {
      RespondRemoves(docs1, "U1", clientName, ev3, 0);
      PullSelf("shoes");
    }

    assert Respond(docs3, "U1", clientName, Event(Some("SHOW_SHOPPING_CART"), None)).result
           == Ok(Some(Buttons(CartEmpty))) by {
      RespondShowButton(docs3, "U1", clientName, None);
    }
  }

  /** The document store: one document per client id (the `user_info` collection). */
  class Store {
    var docs: map<string, Client>

    constructor ()
      ensures docs == map[] && Valid()
    {
      docs := map[];
    }

    ghost predicate Valid()
      reads this
    {
      AllWellFormed(docs)
    }

    /** `addToShoppingCart`: look the client up, create or update the document, and answer by comparing counts. */
    method AddToShoppingCart(clientId: string, clientName: string, itemName: string) returns (r: Reply)
      modifies this
      ensures docs == old(docs)[clientId := Add(Lookup(old(docs), clientId), clientName, itemName).client]
      ensures r == Add(Lookup(old(docs), clientId), clientName, itemName).reply
      ensures old(Valid()) ==> Valid()
    {
      ghost var before := docs;
      if Valid() {
        AddKeepsWellFormed(Lookup(docs, clientId), clientName, itemName);
      }
      var itemNumOld: nat;
      var clientData: Client;
      if clientId !in docs {
        itemNumOld := 0;
        clientData := Client(clientName, [itemName]);
        docs := docs[clientId := clientData];
      } else {
        var clientDataOld := docs[clientId];
        itemNumOld := |clientDataOld.cart|;
        if itemNumOld == ItemNumLimit {
          assert docs == before[clientId := clientDataOld];
          return Buttons(AddFull);
        }
        clientData := Client(clientName, AddToSet(clientDataOld.cart, itemName));
        docs := docs[clientId := clientData];
      }
      var itemNum := |clientData.cart|;
      if itemNum == itemNumOld {
        r := Buttons(AddExisted);
      } else {
        r := Buttons(AddSuccess(itemName, itemNum));
      }
    }

    /** `showShoppingCart`: the EMPTY text, or the listing and its options built one item at a time. */
    method ShowShoppingCart(clientId: string) returns (r: Reply)
      ensures r == Show(Lookup(docs, clientId))
    {
      if clientId !in docs {
        return Buttons(CartEmpty);
      }
      var cart := docs[clientId].cart;
      if |cart| == 0 {
        return Buttons(CartEmpty);
      }
      var quickReplies: seq<QuickReply> := [];
      var replyMessage := CartHead;
      for idx := 0 to |cart|
        invariant replyMessage == CartHead + Concat(Lines(cart)[..idx])
        invariant quickReplies == ItemOptions(cart)[..idx]
      {
        ghost var done := Concat(Lines(cart)[..idx]);
        assert Concat(Lines(cart)[..idx + 1]) == done + Line(idx + 1, cart[idx]) by {
          SplitAt(Lines(cart), idx);
          ConcatSplitLast(Lines(cart)[..idx], Line(idx + 1, cart[idx]));
        }
        SplitAt(ItemOptions(cart), idx);
        AppendAssoc(CartHead, done, Line(idx + 1, cart[idx]));
        replyMessage := replyMessage + Line(idx + 1, cart[idx]);
        quickReplies := quickReplies + [ItemOption(idx)];
      }
      quickReplies := quickReplies + [AllOption, NoneOption];
      assert Lines(cart)[..|cart|] == Lines(cart);
      assert ItemOptions(cart)[..|cart|] == ItemOptions(cart);
      r := QuickReplies(replyMessage, quickReplies);
    }

    /**
     * `removeFromShoppingCart`. A selector `itemIdx >= 0` reads the document and the
     * entry at that position without checking either exists, hence the precondition.
     */
    method RemoveFromShoppingCart(clientId: string, itemIdx: int) returns (r: Option<Reply>)
      requires itemIdx >= 0 ==> clientId in docs && itemIdx < |docs[clientId].cart|
      modifies this
      ensures docs == Put(old(docs), clientId, Remove(Lookup(old(docs), clientId), itemIdx).doc)
      ensures r == Remove(Lookup(old(docs), clientId), itemIdx).reply
      ensures old(Valid()) ==> Valid()
    {
      if Valid() {
        RemoveKeepsWellFormed(Lookup(docs, clientId), itemIdx);
      }
      if itemIdx >= 0 {
        var clientDataOld := docs[clientId];
        var itemName := clientDataOld.cart[itemIdx];
        docs := docs[clientId := clientDataOld.(cart := Pull(clientDataOld.cart, itemName))];
        r := Some(Buttons(RemovedOne(itemName)));
      } else if itemIdx == -1 {
        if clientId in docs {
          docs := docs[clientId := docs[clientId].(cart := [])];
        }
        r := Some(Buttons(RemovedAll));
      } else if itemIdx == -2 {
        r := Some(Buttons(RemovedNone));
      } else {
        r := None;
      }
    }

    /**
     * `handleIncomingPostEvents` after the sender's id and profile name have been
     * fetched: classify the event and run the matching operation. A request the
     * source would abort with an exception is `Err` and leaves the store as it was.
     */
    method HandleIncomingPostEvent(clientId: string, clientName: string, ev: Event)
      returns (r: Result<Option<Reply>, Fault>)
      modifies this
      ensures docs == Respond(old(docs), clientId, clientName, ev).docs
      ensures r == Respond(old(docs), clientId, clientName, ev).result
      ensures old(Valid()) ==> Valid()
    {
      match Classify(ev)
      case StartAction =>
        r := Ok(Some(Buttons(GetStarted)));
      case HelpAction =>
        r := Ok(Some(Buttons(Help)));
      case ShowAction =>
        var reply := ShowShoppingCart(clientId);
        r := Ok(Some(reply));
      case RemoveAction(itemIdx) =>
        if itemIdx >= 0 && clientId !in docs {
          r := Err(NoRecord);
        } else if itemIdx >= 0 && itemIdx >= |docs[clientId].cart| {
          r := Err(IndexOutOfRange);
        } else {
          var reply := RemoveFromShoppingCart(clientId, itemIdx);
          r := Ok(reply);
        }
      case AddAction(itemName) =>
        var reply := AddToShoppingCart(clientId, clientName, itemName);
        r := Ok(Some(reply));
      case Ignore =>
        r := Ok(None);
      case Abort(fault) =>
        r := Err(fault);
    }
  }
}
