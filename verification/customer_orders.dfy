/**
 * The customer's orders page: turning the shopping-list text into the
 * submitted item lines, the form reset after a successful create, the status
 * icon, and the rating buttons under a finished order.
 */
module CustomerOrders {
  import opened Wrappers
  import opened Schema
  import opened Clients
  import OrderProgress

  // ---------------------------------------------------------------------
  // The new-order form
  // ---------------------------------------------------------------------

  /** The characters `String.prototype.trim` removes: white space and line terminators. */
  predicate IsJsWhitespace(c: char) {
    || c == '\t' || c == '\U{B}' || c == '\U{C}' || c == ' ' || c == '\U{A0}' || c == '\U{FEFF}'
    || c == '\U{1680}' || ('\U{2000}' <= c <= '\U{200A}') || c == '\U{202F}' || c == '\U{205F}' || c == '\U{3000}'
    || c == '\n' || c == '\r' || c == '\U{2028}' || c == '\U{2029}'
  }

  /** `!text.trim()`: the text is empty once white space is trimmed from both ends. */
  predicate IsBlank(text: string) {
    forall i :: 0 <= i < |text| ==> IsJsWhitespace(text[i])
  }

  /** `text.split("\n")`: the pieces between newlines, at least one, possibly empty. */
  function SplitLines(text: string): (r: seq<string>)
    ensures |r| >= 1
  {
    if text == [] then [[]]
    else
      var rest := SplitLines(text[1..]);
      if text[0] == '\n' then [[]] + rest
      else [[text[0]] + rest[0]] + rest[1..]
  }

  /** The pieces joined back with newlines. */
  function JoinLines(pieces: seq<string>): string {
    if |pieces| <= 1 then (if pieces == [] then [] else pieces[0])
    else pieces[0] + "\n" + JoinLines(pieces[1..])
  }

  /** No piece contains a newline, and joining the pieces gives the text back. */
  lemma {:induction false} SplitLinesRoundTrip(text: string)
    ensures forall p :: p in SplitLines(text) ==> '\n' !in p
    ensures JoinLines(SplitLines(text)) == text
  {
    if text != [] {
      SplitLinesRoundTrip(text[1..]);
      var rest := SplitLines(text[1..]);
      if text[0] == '\n' {
        assert SplitLines(text) == [[]] + rest;
        assert JoinLines([[]] + rest) == [] + "\n" + JoinLines(rest);
      } else {
        var r := SplitLines(text);
        assert r == [[text[0]] + rest[0]] + rest[1..];
        assert r[1..] == rest[1..];
        forall p | p in r
          ensures '\n' !in p
        {
          if p != r[0] {
            assert p in rest;
          }
        }
        if |rest| == 1 {
          assert JoinLines(r) == [text[0]] + rest[0];
        } else {
          assert JoinLines(rest) == rest[0] + "\n" + JoinLines(rest[1..]);
          assert JoinLines(r) == [text[0]] + rest[0] + "\n" + JoinLines(rest[1..]);
        }
      }
    }
  }

  /** `.filter(Boolean)`: drops the empty strings, keeping the others in order. */
  function NonEmpty(pieces: seq<string>): (r: seq<string>)
    ensures forall p :: p in r ==> p != [] && p in pieces
    ensures forall p :: p in pieces && p != [] ==> p in r
    ensures |r| <= |pieces|
  {
    if pieces == [] then []
    else if pieces[0] == [] then NonEmpty(pieces[1..])
    else [pieces[0]] + NonEmpty(pieces[1..])
  }

  /**
   * The filter laws: filtering a concatenation filters each part, in order,
   * and a single piece is kept exactly when it is not empty.
   */
  lemma {:induction false} NonEmptyAppend(a: seq<string>, b: seq<string>)
    ensures NonEmpty(a + b) == NonEmpty(a) + NonEmpty(b)
    ensures forall p :: NonEmpty([p]) == if p == [] then [] else [p]
  {
    if a != [] {
      NonEmptyAppend(a[1..], b);
      assert (a + b)[1..] == a[1..] + b;
    } else {
      assert a + b == b;
    }
    forall p
      ensures NonEmpty([p]) == if p == [] then [] else [p]
    {
      assert [p][1..] == [];
    }
  }

  /** All characters of a list of strings, in order. */
  function Concat(pieces: seq<string>): string {
    if pieces == [] then [] else pieces[0] + Concat(pieces[1..])
  }

  /** The text with its newlines deleted. */
  function WithoutNewlines(text: string): string {
    if text == [] then []
    else (if text[0] == '\n' then [] else [text[0]]) + WithoutNewlines(text[1..])
  }

  /** The submitted lines of a shopping list. */
  function ItemLines(text: string): seq<string> {
    NonEmpty(SplitLines(text))
  }

  lemma {:induction false} ConcatNonEmpty(pieces: seq<string>)
    ensures Concat(NonEmpty(pieces)) == Concat(pieces)
  {
    if pieces != [] {
      ConcatNonEmpty(pieces[1..]);
      if pieces[0] != [] {
        assert NonEmpty(pieces) == [pieces[0]] + NonEmpty(pieces[1..]);
      }
    }
  }

  lemma {:induction false} ConcatSplitLines(text: string)
    ensures Concat(SplitLines(text)) == WithoutNewlines(text)
  {
    if text != [] {
      ConcatSplitLines(text[1..]);
      var rest := SplitLines(text[1..]);
      if text[0] != '\n' {
        calc {
          Concat(SplitLines(text));
          ([text[0]] + rest[0]) + Concat(rest[1..]);
          [text[0]] + (rest[0] + Concat(rest[1..]));
          [text[0]] + Concat(rest);
        }
      }
    }
  }

  /**
   * The submitted lines are the text's characters, newlines aside, in their
   * original order and nothing else; no line is empty or holds a newline.
   */
  lemma ItemLinesKeepText(text: string)
    ensures Concat(ItemLines(text)) == WithoutNewlines(text)
    ensures forall p :: p in ItemLines(text) ==> p != [] && '\n' !in p
    ensures forall p :: p in SplitLines(text) && p != [] ==> p in ItemLines(text)
  {
    ConcatNonEmpty(SplitLines(text));
    ConcatSplitLines(text);
    SplitLinesRoundTrip(text);
  }

  /** A text without newlines is a single piece. */
  lemma {:induction false} SplitLinesOfWord(w: string)
    requires '\n' !in w
    ensures SplitLines(w) == [w]
  {
    if w != [] {
      SplitLinesOfWord(w[1..]);
      assert [w[0]] + w[1..] == w;
    }
  }

  /** A newline-free word followed by a newline splits off as the first piece. */
  lemma {:induction false} SplitLinesAfterWord(w: string, rest: string)
    requires '\n' !in w
    ensures SplitLines(w + "\n" + rest) == [w] + SplitLines(rest)
  {
    var text := w + "\n" + rest;
    if w == [] {
      assert text[0] == '\n' && text[1..] == rest;
    } else {
      SplitLinesAfterWord(w[1..], rest);
      assert text[0] == w[0] && text[1..] == w[1..] + "\n" + rest;
      assert [w[0]] + w[1..] == w;
    }
  }

  /** Splitting undoes joining, for pieces without newlines. */
  lemma {:induction false} SplitLinesOfJoin(pieces: seq<string>)
    requires |pieces| >= 1
    requires forall i :: 0 <= i < |pieces| ==> '\n' !in pieces[i]
    ensures SplitLines(JoinLines(pieces)) == pieces
  {
    if |pieces| == 1 {
      SplitLinesOfWord(pieces[0]);
    } else {
      SplitLinesOfJoin(pieces[1..]);
      SplitLinesAfterWord(pieces[0], JoinLines(pieces[1..]));
      assert [pieces[0]] + pieces[1..] == pieces;
    }
  }

  /**
   * A list typed one item per line is submitted as exactly those items, one
   * per line and in order: no line is merged, split, dropped or reordered.
   */
  lemma ItemLinesOnePerLine(items: seq<string>)
    requires |items| >= 1
    requires forall i :: 0 <= i < |items| ==> items[i] != [] && '\n' !in items[i]
    ensures ItemLines(JoinLines(items)) == items
  {
    SplitLinesOfJoin(items);
    NonEmptyKeepsAll(items);
  }

  /** Filtering keeps a list with no empty piece as it is. */
  lemma {:induction false} NonEmptyKeepsAll(pieces: seq<string>)
    requires forall i :: 0 <= i < |pieces| ==> pieces[i] != []
    ensures NonEmpty(pieces) == pieces
  {
    if pieces != [] {
      NonEmptyKeepsAll(pieces[1..]);
      assert [pieces[0]] + pieces[1..] == pieces;
    }
  }

  lemma {:induction false} WithoutNewlinesKeepsOthers(text: string, i: int)
    requires 0 <= i < |text| && text[i] != '\n'
    ensures WithoutNewlines(text) != []
  {
    if i > 0 && text[0] == '\n' {
      WithoutNewlinesKeepsOthers(text[1..], i - 1);
    }
  }

  /** A list that is not blank yields at least one line. */
  lemma NotBlankHasItems(text: string)
    requires !IsBlank(text)
    ensures |ItemLines(text)| >= 1
  {
    var i :| 0 <= i < |text| && !IsJsWhitespace(text[i]);
    WithoutNewlinesKeepsOthers(text, i);
    ItemLinesKeepText(text);
  }

  /** The dialog's state: open or closed, and its two text fields. */
  datatype NewOrderForm = NewOrderForm(open: bool, items: string, notes: string)

  /** What pressing "Place Order" does. */
  datatype Submission =
    | BlankListError                                   // the error toast; nothing is sent
    | CreateOrder(items: seq<string>, notes: string)   // the body of the create request

  /** `handleNewOrder`: refuse a blank list, otherwise send its lines and the notes as typed. */
  function HandleNewOrder(form: NewOrderForm): (r: Submission)
    ensures r.BlankListError? <==> IsBlank(form.items)
    ensures r.CreateOrder? ==> r.items == ItemLines(form.items) && r.notes == form.notes && |r.items| >= 1
  {
    if IsBlank(form.items) then BlankListError
    else
      NotBlankHasItems(form.items);
      CreateOrder(ItemLines(form.items), form.notes)
  }

  /** After a successful create: the dialog closes and both fields are cleared. */
  function AfterCreated(form: NewOrderForm): (r: NewOrderForm)
    ensures !r.open && r.items == [] && r.notes == []
    ensures IsBlank(r.items) && HandleNewOrder(r) == BlankListError
  {
    NewOrderForm(false, "", "")
  }

  // ---------------------------------------------------------------------
  // The status icon
  // ---------------------------------------------------------------------

  datatype Motion = Still | Bounce | Pulse

  /** The icon shown beside an order: its glyph, colour and animation. */
  datatype Badge = Badge(icon: OrderProgress.Icon, color: string, motion: Motion)

  /** `getStatusIcon`: one badge per group of statuses, and none for any other, paid included. */
  function StatusBadge(status: Status): (r: Option<Badge>)
    ensures r.None? <==> status !in {Pending, Accepted, Shopping, Delivering, Completed}
  {
    match status
    case Pending => Some(Badge(OrderProgress.ShoppingCart, "text-yellow-500", Still))
    case Accepted | Shopping => Some(Badge(OrderProgress.ShoppingCart, "text-blue-500", Bounce))
    case Delivering => Some(Badge(OrderProgress.Truck, "text-blue-500", Pulse))
    case Completed => Some(Badge(OrderProgress.Check, "text-green-500", Still))
    case _ => None
  }

  /** The four groups (pending; accepted or shopping; delivering; completed) get four different badges. */
  lemma StatusBadgesDistinct(s: Status, t: Status)
    requires StatusBadge(s).Some? && StatusBadge(t).Some?
    ensures StatusBadge(s) == StatusBadge(t) <==> s == t || (s in {Accepted, Shopping} && t in {Accepted, Shopping})
  {
  }

  // ---------------------------------------------------------------------
  // Rating the shopper
  // ---------------------------------------------------------------------

  /** The five rating buttons, left to right. */
  const RatingChoices: seq<int> := [1, 2, 3, 4, 5]

  /** The body a rating button posts: the order, the reviewee, the rating and an empty comment. */
  datatype RatingRequest = RatingRequest(orderId: int, toId: Option<int>, rating: int, comment: string)

  /** As written: the buttons show for a completed order whose shopper id is falsy. */
  predicate RatingButtonsShownAsWritten(o: Order) {
    o.status == Completed && !Truthy(o.shopperId)
  }

  /** As written: the button posts `order.shopperId` as the reviewee (the `!` only silences the type checker). */
  function RatingRequestAsWritten(o: Order, rating: int): (r: RatingRequest)
    ensures r.orderId == o.id && r.toId == o.shopperId && r.rating == rating && r.comment == ""
  {
    RatingRequest(o.id, o.shopperId, rating, "")
  }

  /**
   * The condition is inverted: whenever the buttons show, the review they
   * send names no shopper (null or 0), and a completed order that has a
   * shopper never shows them.
   */
  lemma RatingButtonsAsWrittenNameNoShopper(o: Order, rating: int)
    ensures RatingButtonsShownAsWritten(o) ==> !Truthy(RatingRequestAsWritten(o, rating).toId)
    ensures o.status == Completed && o.shopperId.Some? && o.shopperId.value >= 1 ==> !RatingButtonsShownAsWritten(o)
  {
  }

  /** The evident intent: the buttons show for a completed order that has a shopper. */
  predicate RatingButtonsShown(o: Order) {
    o.status == Completed && Truthy(o.shopperId)
  }

  /** The request a button posts when the buttons are shown: it reviews the order's shopper. */
  function RatingRequestFor(o: Order, rating: int): (r: RatingRequest)
    requires RatingButtonsShown(o)
    ensures r.orderId == o.id && r.toId == o.shopperId && Truthy(r.toId) && r.rating == rating && r.comment == ""
  {
    RatingRequest(o.id, Some(o.shopperId.value), rating, "")
  }

  /** With the corrected condition, every completed order with a shopper can be rated, and each rating names that shopper. */
  lemma RatingButtonsReachShopper(o: Order)
    requires o.status == Completed && o.shopperId.Some? && o.shopperId.value >= 1
    ensures RatingButtonsShown(o)
    ensures forall i :: 0 <= i < |RatingChoices| ==>
      RatingRequestFor(o, RatingChoices[i]).toId == o.shopperId && 1 <= RatingRequestFor(o, RatingChoices[i]).rating <= 5
  {
  }
}
