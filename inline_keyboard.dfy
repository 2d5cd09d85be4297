/** The inline keyboard attached to the terms prompt (keyboards/inline.py). */
module Inline {
  import opened PyText

  datatype Button = Button(text: string, callbackData: string)

  /** Rows of buttons, as InlineKeyboardMarkup lays them out. */
  datatype Keyboard = Keyboard(rows: seq<seq<Button>>)

  const AcceptPrefix := "user_accept:"
  const AcceptButtonText := "\U{2705} I Accept the T&C"

  /** The callback payload of the accept button: the prefix and the decimal user id, nothing else. */
  function AcceptPayload(userId: int): string {
    AcceptPrefix + IntToString(userId)
  }

  /** get_tc_keyboard: the accept button addressed to `userId`. */
  function TcKeyboard(userId: int): Keyboard {
    Keyboard([[Button(AcceptButtonText, AcceptPayload(userId))]])
  }

  /**
   * The keyboard has one row holding one button, labelled with the accept text,
   * whose payload starts with the prefix and continues with `str(userId)` only.
   */
  lemma TcKeyboardShape(userId: int)
    ensures |TcKeyboard(userId).rows| == 1 && |TcKeyboard(userId).rows[0]| == 1
    ensures TcKeyboard(userId).rows[0][0].text == AcceptButtonText
    ensures StartsWith(TcKeyboard(userId).rows[0][0].callbackData, AcceptPrefix)
    ensures TcKeyboard(userId).rows[0][0].callbackData[|AcceptPrefix|..] == IntToString(userId)
  {
  }
}
