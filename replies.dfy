/**
 * What the chat server sends back. Each send call of the messaging SDK is a
 * `Reply` value here: a canned text with the three usual buttons under it, or a
 * text with a row of quick replies.
 */
module Replies {
  import opened Numerals

  /** The kinds of canned text (`ReplyTemplate`), with the parameters each is formatted with. */
  datatype Template =
    | GetStarted
    | Help
    | AddSuccess(itemName: string, itemNum: nat)
    | AddFull
    | AddExisted
    | CartEmpty
    | RemovedOne(itemName: string)
    | RemovedAll
    | RemovedNone

  /** A quick-reply chip: its label and the payload the platform posts back when it is tapped. */
  datatype QuickReply = QuickReply(title: string, payload: string)

  /** A button under a message: one that posts a payload back, or one that opens a page. */
  datatype Button =
    | PostbackButton(title: string, payload: string)
    | UrlButton(title: string, url: string)

  /**
   * `Buttons(t)` is `showUsualButtons`: the text of `t` with `ButtonGroup` under it;
   * `QuickReplies` is `send_quick_replies`.
   */
  datatype Reply =
    | Buttons(template: Template)
    | QuickReplies(text: string, options: seq<QuickReply>)

  /** The three buttons sent under every canned text. */
  const ButtonGroup: seq<Button> := [
    PostbackButton("我的追蹤清單", "SHOW_SHOPPING_CART"),
    PostbackButton("查看使用說明", "SHOW_HELP"),
    UrlButton("問題/意見回饋", "https://www.facebook.com/EZBuy-245463649459051/")
  ]

  /** First line of a cart listing. */
  const CartHead: string := "show_shopping_cart_head_text\n"

  /** The text a template is formatted to. */
  function Text(t: Template): string {
    match t
    case GetStarted => "get_started_text"
    case Help => "help_text"
    case AddSuccess(name, n) =>
      "成功將「" + name + "」加入追蹤清單囉！我們將會持續替你關注二手版中的相關商品~\n（目前你已追蹤了"
      + NatToString(n) + "/9個商品）"
    case AddFull => "不好意思，你的追蹤清單已經滿了> <\n先將清單中不想繼續追蹤的商品移除後，再來加入新的商品吧！"
    case AddExisted => "你之前已經有追蹤這項商品囉^^\n要試試看加入其它的商品嗎？"
    case CartEmpty => "show_shopping_cart_empty_text"
    case RemovedOne(name) =>
      "成功將「" + name + "」從追蹤清單移除囉！\n（Tips：想追蹤其它商品，直接在訊息欄輸入商品名稱就可以了~）"
    case RemovedAll => "成功將追蹤清單中所有商品移除囉！\n（Tips：想追蹤其它商品，直接在訊息欄輸入商品名稱就可以了~）"
    case RemovedNone => "感謝你使用EZBuy，記得隨時關注我們的新消息喔> <"
  }

  /** `t` occurs somewhere in `s`. */
  predicate Contains(s: string, t: string) {
    exists i :: 0 <= i <= |s| && t <= s[i..]
  }

  /** The success text names the item and shows the new count out of nine. */
  lemma AddSuccessMentions(itemName: string, itemNum: nat)
    ensures Contains(Text(AddSuccess(itemName, itemNum)), itemName)
    ensures Contains(Text(AddSuccess(itemName, itemNum)), NatToString(itemNum) + "/9")
  {
    var head := "成功將「";
    var mid := "」加入追蹤清單囉！我們將會持續替你關注二手版中的相關商品~\n（目前你已追蹤了";
    var tail := "個商品）";
    var s := Text(AddSuccess(itemName, itemNum));
    var count := NatToString(itemNum) + "/9";
    assert s == head + itemName + mid + count + tail;
    var i := |head|;
    assert itemName <= s[i..];
    var j := |head| + |itemName| + |mid|;
    assert count <= s[j..];
  }

  /** The removal text names the item removed. */
  lemma RemovedOneMentions(itemName: string)
    ensures Contains(Text(RemovedOne(itemName)), itemName)
  {
    var s := Text(RemovedOne(itemName));
    var i := |"成功將「"|;
    assert itemName <= s[i..];
  }
}
