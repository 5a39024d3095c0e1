/**
 * The tracking list ("shopping cart") of one client as the chat server keeps it
 * in its document store: what adding, listing and removing do to one client's
 * document, and the reply each produces. The store itself, which holds one such
 * document per client, is the `Store` class of module `Server`.
 */
module Carts {
  import opened Wrappers
  import opened Numerals
  import opened Replies

  /** The most items one client may track (`ConstantVariable.ITEM_NUM_LIMIT`). */
  const ItemNumLimit: nat := 9

  /** A client's document: the display name last seen and the tracked item names, in insertion order. */
  datatype Client = Client(name: string, cart: seq<string>)

  /** The items of a document that may be missing: a missing document tracks nothing. */
  function Cart(doc: Option<Client>): seq<string> {
    if doc.Some? then doc.value.cart else []
  }

  predicate NoDuplicates(items: seq<string>) {
    forall i, j :: 0 <= i < j < |items| ==> items[i] != items[j]
  }

  /** What every document written by this server satisfies: at most nine items, none twice. */
  predicate WellFormed(c: Client) {
    |c.cart| <= ItemNumLimit && NoDuplicates(c.cart)
  }

  /** The document store's `$addToSet` on the item list. */
  function AddToSet(items: seq<string>, item: string): (r: seq<string>)
    ensures items <= r && item in r
    ensures |r| <= |items| + 1
    ensures |r| == |items| <==> item in items
  {
    if item in items then items else items + [item]
  }

  /** The document store's `$pull` on the item list: every entry equal to `item` goes, the rest stay in order. */
  function Pull(items: seq<string>, item: string): (r: seq<string>)
    ensures item !in r
    ensures |r| <= |items|
  {
    if |items| == 0 then []
    else
      (if items[0] == item then [] else [items[0]]) + Pull(items[1..], item)
  }

  /** Pulling removes every copy of the item and keeps every copy of every other item. */
  lemma {:induction false} PullCounts(items: seq<string>, item: string)
    ensures multiset(Pull(items, item)) == multiset(items)[item := 0]
  {
    if items != [] {
      assert items == [items[0]] + items[1..];
      PullCounts(items[1..], item);
    }
  }

  /** Pulling from a concatenation pulls from each part: relative order is kept. */
  lemma {:induction false} PullConcat(a: seq<string>, b: seq<string>, item: string)
    ensures Pull(a + b, item) == Pull(a, item) + Pull(b, item)
  {
    if a != [] {
      assert (a + b)[1..] == a[1..] + b;
      PullConcat(a[1..], b, item);
    } else {
      assert a + b == b;
    }
  }

  /** Pulling an item that is not there changes nothing. */
  lemma {:induction false} PullAbsent(items: seq<string>, item: string)
    requires item !in items
    ensures Pull(items, item) == items
  {
    if items != [] {
      PullAbsent(items[1..], item);
    }
  }

  /** The outcome of an add: the client's document afterwards and the reply. */
  datatype Added = Added(client: Client, reply: Reply)

  /**
   * `addToShoppingCart` on the client's document, `None` for a new client: a new
   * client gets a document holding the item; a full list is refused untouched;
   * otherwise the name is overwritten and the item appended unless already there.
   */
  function Add(doc: Option<Client>, clientName: string, itemName: string): (r: Added)
    ensures r.reply.Buttons?
    ensures r.reply.template.AddFull? <==> doc.Some? && |doc.value.cart| == ItemNumLimit
    ensures r.reply.template.AddFull? ==> r.client == doc.value
    ensures !r.reply.template.AddFull? ==>
              r.client.name == clientName && r.client.cart == AddToSet(Cart(doc), itemName)
    ensures r.reply.template.AddExisted? <==> !r.reply.template.AddFull? && itemName in Cart(doc)
    ensures r.reply.template.AddSuccess? <==> !r.reply.template.AddFull? && itemName !in Cart(doc)
    ensures r.reply.template.AddSuccess? ==> r.reply.template == AddSuccess(itemName, |r.client.cart|)
  {
    match doc
    case None => Added(Client(clientName, [itemName]), Buttons(AddSuccess(itemName, 1)))
    case Some(c) =>
      if |c.cart| == ItemNumLimit then Added(c, Buttons(AddFull))
      else if itemName in c.cart then Added(c.(name := clientName), Buttons(AddExisted))
      else Added(Client(clientName, c.cart + [itemName]), Buttons(AddSuccess(itemName, |c.cart| + 1)))
  }

  /**
   * A first add creates a document holding exactly that item, reported as the
   * first of nine; adding it again keeps that single entry and answers EXISTED.
   */
  lemma AddToNewClient(clientName: string, itemName: string)
    ensures Add(None, clientName, itemName).client == Client(clientName, [itemName])
    ensures Add(None, clientName, itemName).reply == Buttons(AddSuccess(itemName, 1))
    ensures Add(Some(Client(clientName, [itemName])), clientName, itemName)
            == Added(Client(clientName, [itemName]), Buttons(AddExisted))
  {
  }

  /** Below the limit, a new item goes to the end and the reply carries the new count. */
  lemma AddAppendsNewItem(c: Client, clientName: string, itemName: string)
    requires |c.cart| < ItemNumLimit && itemName !in c.cart
    ensures Add(Some(c), clientName, itemName).client == Client(clientName, c.cart + [itemName])
    ensures Add(Some(c), clientName, itemName).reply == Buttons(AddSuccess(itemName, |c.cart| + 1))
  {
  }

  /** Below the limit, an item already tracked leaves the list as it was; only the name is overwritten. */
  lemma AddExistingItem(c: Client, clientName: string, itemName: string)
    requires |c.cart| < ItemNumLimit && itemName in c.cart
    ensures Add(Some(c), clientName, itemName) == Added(c.(name := clientName), Buttons(AddExisted))
  {
  }

  /** Adding never takes a document past nine items and never makes an item appear twice. */
  lemma AddKeepsWellFormed(doc: Option<Client>, clientName: string, itemName: string)
    requires doc.Some? ==> WellFormed(doc.value)
    ensures WellFormed(Add(doc, clientName, itemName).client)
  {
    var c' := Add(doc, clientName, itemName).client;
    if !Add(doc, clientName, itemName).reply.template.AddFull? && itemName !in Cart(doc) {
      assert c'.cart == Cart(doc) + [itemName];
    }
  }

  /** Adding the same item again changes nothing more and is answered FULL or EXISTED. */
  lemma AddIdempotent(doc: Option<Client>, clientName: string, itemName: string)
    ensures var once := Add(doc, clientName, itemName);
            var twice := Add(Some(once.client), clientName, itemName);
            twice.client == once.client && (twice.reply == Buttons(AddFull) || twice.reply == Buttons(AddExisted))
  {
  }

  /** A client adding the given items one after the other, starting from `doc`. */
  function AddEach(doc: Option<Client>, clientName: string, items: seq<string>): Option<Client>
    decreases |items|
  {
    if items == [] then doc
    else AddEach(Some(Add(doc, clientName, items[0]).client), clientName, items[1..])
  }

  /** Distinct items that fit are all accepted and tracked in the order they were added. */
  lemma {:induction false} AddEachDistinct(doc: Option<Client>, clientName: string, items: seq<string>)
    requires NoDuplicates(Cart(doc) + items)
    requires |Cart(doc)| + |items| <= ItemNumLimit
    ensures Cart(AddEach(doc, clientName, items)) == Cart(doc) + items
    decreases |items|
  {
    if items != [] {
      var x := items[0];
      AppendFirst(Cart(doc), items);
      assert x !in Cart(doc) by {
        forall i | 0 <= i < |Cart(doc)| ensures Cart(doc)[i] != x {
          assert Cart(doc)[i] == (Cart(doc) + items)[i];
        }
      }
      var next := Some(Add(doc, clientName, x).client);
      assert Cart(next) == Cart(doc) + [x];
      AddEachDistinct(next, clientName, items[1..]);
    }
  }

  /**
   * Each of those adds is answered SUCCESS: the `k`-th (from 0) with the item and
   * the count it brings the list to.
   */
  lemma AddEachStepSucceeds(doc: Option<Client>, clientName: string, items: seq<string>, k: nat)
    requires NoDuplicates(Cart(doc) + items)
    requires |Cart(doc)| + |items| <= ItemNumLimit
    requires k < |items|
    ensures Add(AddEach(doc, clientName, items[..k]), clientName, items[k]).reply
            == Buttons(AddSuccess(items[k], |Cart(doc)| + k + 1))
  {
    var all := Cart(doc) + items;
    var n := |Cart(doc)| + k;
    assert Cart(doc) + items[..k] == all[..n];
    assert NoDuplicates(Cart(doc) + items[..k]) by {
      forall i, j | 0 <= i < j < n ensures all[..n][i] != all[..n][j] {
        assert all[..n][i] == all[i] && all[..n][j] == all[j];
      }
    }
    AddEachDistinct(doc, clientName, items[..k]);
    assert items[k] !in all[..n] by {
      forall i | 0 <= i < n ensures all[..n][i] != items[k] {
        assert all[..n][i] == all[i] && all[n] == items[k];
      }
    }
  }

  /** Moving the first element of `b` to the end of `a` keeps the concatenation. */
  lemma AppendFirst<T>(a: seq<T>, b: seq<T>)
    requires b != []
    ensures (a + b)[|a|] == b[0]
    ensures (a + [b[0]]) + b[1..] == a + b
  {
  }

  /** Nine distinct items fill a new client's list; a tenth add is refused and changes nothing. */
  lemma FillThenFull(clientName: string, items: seq<string>, extra: string)
    requires |items| == ItemNumLimit && NoDuplicates(items)
    ensures Cart(AddEach(None, clientName, items)) == items
    ensures var full := AddEach(None, clientName, items);
            Add(full, clientName, extra) == Added(full.value, Buttons(AddFull))
  {
    assert Cart(None) + items == items;
    AddEachDistinct(None, clientName, items);
  }

  /** The payload of the quick reply that removes selector `selector`. */
  function RemovePayload(selector: int): string {
    "REMOVE_ITEM," + IntToString(selector)
  }

  /** Line `k` of a listing, numbered from one. */
  function Line(k: nat, item: string): string {
    NatToString(k) + ". " + item + "\n"
  }

  /** The listing lines of a cart. */
  function Lines(items: seq<string>): seq<string> {
    seq(|items|, i requires 0 <= i < |items| => Line(i + 1, items[i]))
  }

  /** The lines joined, first to last. */
  function Concat(lines: seq<string>): string {
    if lines == [] then "" else Concat(lines[..|lines| - 1]) + lines[|lines| - 1]
  }

  lemma {:induction false} ConcatAppend(a: seq<string>, b: seq<string>)
    ensures Concat(a + b) == Concat(a) + Concat(b)
    decreases |b|
  {
    if b == [] {
      assert a + b == a;
    } else {
      DropLast(a, b);
      ConcatAppend(a, b[..|b| - 1]);
    }
  }

  /** The quick reply offering to remove the item shown at 0-based position `idx`. */
  function ItemOption(idx: nat): QuickReply {
    QuickReply("第" + NatToString(idx + 1) + "項", RemovePayload(idx))
  }

  function ItemOptions(items: seq<string>): seq<QuickReply> {
    seq(|items|, i requires 0 <= i < |items| => ItemOption(i))
  }

  /** The quick reply that removes everything. */
  const AllOption: QuickReply := QuickReply("全部取消", "REMOVE_ITEM,-1")

  /** The quick reply that removes nothing. */
  const NoneOption: QuickReply := QuickReply("沒事了~", "REMOVE_ITEM,-2")

  /**
   * `showShoppingCart` on the client's document: the EMPTY text when there is no
   * item, otherwise the numbered listing with one removal option per item and
   * the options "all" and "none".
   */
  function Show(doc: Option<Client>): (r: Reply)
    ensures r == Buttons(CartEmpty) <==> Cart(doc) == []
    ensures r.QuickReplies? <==> Cart(doc) != []
  {
    if Cart(doc) == [] then Buttons(CartEmpty)
    else QuickReplies(CartHead + Concat(Lines(Cart(doc))), ItemOptions(Cart(doc)) + [AllOption, NoneOption])
  }

  /**
   * A listing of `n` items carries `n + 2` options: removing position `k` for each
   * `k < n`, then "all" (-1) and "none" (-2). An empty cart gets the EMPTY text.
   */
  lemma ShowOptions(doc: Option<Client>)
    ensures Cart(doc) == [] ==> Show(doc) == Buttons(CartEmpty)
    ensures Cart(doc) != [] ==>
              var options := Show(doc).options;
              var n := |Cart(doc)|;
              && |options| == n + 2
              && (forall k :: 0 <= k < n ==> options[k].payload == RemovePayload(k))
              && options[n].payload == RemovePayload(-1)
              && options[n + 1].payload == RemovePayload(-2)
  {
    assert IntToString(-1) == "-1" && IntToString(-2) == "-2";
  }

  lemma ConcatSingle(line: string)
    ensures Concat([line]) == line
  {
    assert [line][..0] == [];
  }

  /** The joined text holds line `i` right after lines `0` to `i - 1`, and lines `i + 1` onwards after it. */
  lemma ConcatAt(lines: seq<string>, i: nat)
    requires i < |lines|
    ensures Concat(lines) == Concat(lines[..i]) + lines[i] + Concat(lines[i + 1..])
  {
    SplitAt(lines, i);
    ConcatAppend(lines[..i + 1], lines[i + 1..]);
    ConcatSplitLast(lines[..i], lines[i]);
  }

  /** Dropping the last element of `a + b` drops the last element of `b`. */
  lemma DropLast<T>(a: seq<T>, b: seq<T>)
    requires b != []
    ensures (a + b)[..|a + b| - 1] == a + b[..|b| - 1]
    ensures (a + b)[|a + b| - 1] == b[|b| - 1]
  {
  }

  /** Cutting a sequence after position `i`, and the prefix before its last element. */
  lemma SplitAt<T>(s: seq<T>, i: nat)
    requires i < |s|
    ensures s == s[..i + 1] + s[i + 1..]
    ensures s[..i + 1] == s[..i] + [s[i]]
  {
  }

  lemma AppendAssoc(a: string, b: string, c: string)
    ensures (a + b) + c == a + (b + c)
  {
  }

  lemma ConcatSplitLast(before: seq<string>, line: string)
    ensures Concat(before + [line]) == Concat(before) + line
  {
    ConcatAppend(before, [line]);
    ConcatSingle(line);
  }

  /** Line `k` of a non-empty cart's listing reads "k. item", right after lines 1 to k-1. */
  lemma ListingLine(doc: Option<Client>, k: nat)
    requires 1 <= k <= |Cart(doc)|
    ensures Show(doc).QuickReplies?
    ensures var before := CartHead + Concat(Lines(Cart(doc))[..k - 1]);
            |before| <= |Show(doc).text| && Line(k, Cart(doc)[k - 1]) <= Show(doc).text[|before|..]
  {
    var lines := Lines(Cart(doc));
    var before := CartHead + Concat(lines[..k - 1]);
    var line := lines[k - 1];
    var rest := Concat(lines[k..]);
    assert Show(doc).text == CartHead + Concat(lines);
    ConcatAt(lines, k - 1);
    InfixAt(CartHead, Concat(lines[..k - 1]), line, rest);
  }

  /** In `head + a + b + c`, `b` starts right after `head + a`. */
  lemma InfixAt(head: string, a: string, b: string, c: string)
    ensures |head + a| <= |head + (a + b + c)| && b <= (head + (a + b + c))[|head + a|..]
  {
    assert (head + (a + b + c))[|head + a|..] == b + c;
  }

  /** The outcome of a removal: the document afterwards and the reply, if any is sent. */
  datatype Removed = Removed(doc: Option<Client>, reply: Option<Reply>)

  /**
   * `removeFromShoppingCart` on the client's document. A selector `idx >= 0` names
   * the item at that position and pulls every entry of that name; the source
   * reads that position without a check, so it must exist. `-1` empties the list
   * (of an existing document), `-2` only answers, any other selector does nothing.
   */
  function Remove(doc: Option<Client>, idx: int): (r: Removed)
    requires idx >= 0 ==> doc.Some? && idx < |doc.value.cart|
    ensures r.doc.Some? <==> doc.Some?
    ensures r.doc.Some? ==> r.doc.value.name == doc.value.name
    ensures idx >= 0 ==>
              var name := doc.value.cart[idx];
              && r.reply == Some(Buttons(RemovedOne(name)))
              && r.doc.value.cart == Pull(doc.value.cart, name)
              && name !in r.doc.value.cart
              && multiset(r.doc.value.cart) == multiset(doc.value.cart)[name := 0]
    ensures idx == -1 ==> Cart(r.doc) == [] && r.reply == Some(Buttons(RemovedAll))
    ensures idx < -1 ==> r.doc == doc && (r.reply.Some? <==> idx == -2)
    ensures idx == -2 ==> r.reply == Some(Buttons(RemovedNone))
  {
    if idx >= 0 then
      var c := doc.value;
      var name := c.cart[idx];
      PullCounts(c.cart, name);
      Removed(Some(c.(cart := Pull(c.cart, name))), Some(Buttons(RemovedOne(name))))
    else if idx == -1 then
      Removed(if doc.Some? then Some(doc.value.(cart := [])) else None, Some(Buttons(RemovedAll)))
    else if idx == -2 then
      Removed(doc, Some(Buttons(RemovedNone)))
    else
      Removed(doc, None)
  }

  /** In a list without duplicates, removing position `idx` drops exactly that entry; the rest shift up in order. */
  lemma RemoveAtUnique(c: Client, idx: nat)
    requires NoDuplicates(c.cart) && idx < |c.cart|
    ensures Cart(Remove(Some(c), idx).doc) == c.cart[..idx] + c.cart[idx + 1..]
  {
    OccursOnce(c.cart, idx);
    PullUnique(c.cart, idx);
  }

  /** Pulling an entry that occurs once removes just that position. */
  lemma PullUnique(items: seq<string>, idx: nat)
    requires idx < |items| && items[idx] !in items[..idx] && items[idx] !in items[idx + 1..]
    ensures Pull(items, items[idx]) == items[..idx] + items[idx + 1..]
  {
    var x := items[idx];
    var before, after := items[..idx], items[idx + 1..];
    calc {
      Pull(items, x);
      { assert items == before + [x] + after; }
      Pull(before + [x] + after, x);
      { PullConcat(before + [x], after, x); }
      Pull(before + [x], x) + Pull(after, x);
      { PullConcat(before, [x], x); }
      Pull(before, x) + Pull([x], x) + Pull(after, x);
      { PullAbsent(before, x); PullAbsent(after, x); PullSelf(x); }
      before + [] + after;
      { assert before + [] == before; }
      before + after;
    }
  }

  lemma PullSelf(x: string)
    ensures Pull([x], x) == []
  {
    assert [x][1..] == [];
  }

  /** In a list without duplicates an entry occurs neither before nor after its own position. */
  lemma OccursOnce(items: seq<string>, idx: nat)
    requires NoDuplicates(items) && idx < |items|
    ensures items[idx] !in items[..idx] && items[idx] !in items[idx + 1..]
  {
    var x := items[idx];
    forall i | 0 <= i < idx ensures items[..idx][i] != x {
      assert items[..idx][i] == items[i];
    }
    var after := items[idx + 1..];
    forall i | 0 <= i < |after| ensures after[i] != x {
      assert after[i] == items[idx + 1 + i];
    }
  }

  /** Every removal keeps a well-formed document well-formed. */
  lemma RemoveKeepsWellFormed(doc: Option<Client>, idx: int)
    requires idx >= 0 ==> doc.Some? && idx < |doc.value.cart|
    requires doc.Some? ==> WellFormed(doc.value)
    ensures var r := Remove(doc, idx); r.doc.Some? ==> WellFormed(r.doc.value)
  {
    if idx >= 0 {
      var items := doc.value.cart;
      RemoveAtUnique(doc.value, idx);
      var rest := items[..idx] + items[idx + 1..];
      forall i, j | 0 <= i < j < |rest| ensures rest[i] != rest[j] {
        var i' := if i < idx then i else i + 1;
        var j' := if j < idx then j else j + 1;
        assert rest[i] == items[i'] && rest[j] == items[j'];
      }
    }
  }

  /** After "remove all", listing the cart gives the EMPTY reply. */
  lemma ClearThenShowEmpty(doc: Option<Client>)
    ensures Show(Remove(doc, -1).doc) == Buttons(CartEmpty)
  {
  }
}
