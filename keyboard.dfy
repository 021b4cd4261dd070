/**
 * Inline keyboards as the bot builds them: an `InlineKeyboardBuilder` that
 * grows row by row, and the markup it finally hands over, a sequence of rows
 * of (text, callback data) buttons.
 */
module Keyboard {
  import opened Orders

  datatype Button = Button(text: string, callbackData: string)

  type Row = seq<Button>

  /** The `inline_keyboard` of an `InlineKeyboardMarkup`: rows from top to bottom. */
  type Markup = seq<Row>

  /** aiogram's `InlineKeyboardBuilder`, reduced to the rows it has collected. */
  class KeyboardBuilder {
    var rows: seq<Row>

    constructor ()
      ensures rows == []
    {
      rows := [];
    }

    /** `builder.row(*buttons)`: the buttons become one new bottom row. */
    method AddRow(buttons: Row)
      modifies this
      ensures rows == old(rows) + [buttons]
    {
      rows := rows + [buttons];
    }

    /** `builder.as_markup()`. */
    function AsMarkup(): Markup
      reads this
    {
      rows
    }
  }

  /**
   * The callback data of every button of a keyboard. The two `ensures`
   * only spell out the set comprehension, in the form the token lemmas
   * use; they say nothing beyond it.
   */
  function Tokens(m: Markup): (r: set<string>)
    ensures forall i, j :: 0 <= i < |m| && 0 <= j < |m[i]| ==> m[i][j].callbackData in r
    ensures forall t :: t in r ==> exists i, j :: 0 <= i < |m| && 0 <= j < |m[i]| && m[i][j].callbackData == t
  {
    set i, j | 0 <= i < |m| && 0 <= j < |m[i]| :: m[i][j].callbackData
  }

  /** One single-button row per order, in the order of the list: the loop of the list keyboards. */
  function OrderRows(orders: seq<Order>, button: Order -> Button): Markup {
    if orders == [] then [] else [[button(orders[0])]] + OrderRows(orders[1..], button)
  }

  /** There is a row for each order, and row `i` holds exactly the button of order `i`. */
  lemma {:induction false} OrderRowsAt(orders: seq<Order>, button: Order -> Button, i: nat)
    requires i < |orders|
    ensures |OrderRows(orders, button)| == |orders|
    ensures OrderRows(orders, button)[i] == [button(orders[i])]
    decreases |orders|
  {
    if i > 0 {
      OrderRowsAt(orders[1..], button, i - 1);
    } else if |orders| > 1 {
      OrderRowsAt(orders[1..], button, 0);
    }
  }

  /**
   * A list keyboard, a row per order and then a closing row, has one row
   * more than there are orders; row `i` is the button of order `i`.
   */
  lemma ListShape(orders: seq<Order>, button: Order -> Button, last: Button)
    ensures |OrderRows(orders, button) + [[last]]| == |orders| + 1
    ensures forall i :: 0 <= i < |orders| ==> (OrderRows(orders, button) + [[last]])[i] == [button(orders[i])]
    ensures (OrderRows(orders, button) + [[last]])[|orders|] == [last]
  {
    if orders != [] {
      OrderRowsAt(orders, button, 0);
    }
    forall i | 0 <= i < |orders|
      ensures (OrderRows(orders, button) + [[last]])[i] == [button(orders[i])]
    {
      OrderRowsAt(orders, button, i);
    }
  }

  /** Adding one order at the end adds its row at the bottom: what one loop iteration does. */
  lemma {:induction false} OrderRowsSnoc(orders: seq<Order>, o: Order, button: Order -> Button)
    ensures OrderRows(orders + [o], button) == OrderRows(orders, button) + [[button(o)]]
    decreases |orders|
  {
    if orders == [] {
      assert [] + [o] == [o];
    } else {
      assert (orders + [o])[1..] == orders[1..] + [o];
      OrderRowsSnoc(orders[1..], o, button);
    }
  }
}
