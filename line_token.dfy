/** `config/LineToken`: one token cut from a delimited line, with the column where its raw text
    starts and its raw length (quote characters included). */
module LineTokens {

  /** The data a token carries, as a value. */
  datatype TokenValue = TokenValue(token: string, fullTokenLength: int, columnPosition: int)

  class LineToken {
    var columnPosition: int
    /** There is no setter for the length and the text: they are fixed by the constructor. */
    const fullTokenLength: int
    const token: string

    /** Built once the cursor stands one column past the token: the column is worked back from
        the cursor and the raw length. */
    constructor (token: string, fullTokenLength: int, currentColumnPosition: int)
      ensures this.token == token && this.fullTokenLength == fullTokenLength
      ensures columnPosition == currentColumnPosition - fullTokenLength
      ensures View() == TokenValue(token, fullTokenLength, currentColumnPosition - fullTokenLength)
    {
      this.token := token;
      this.fullTokenLength := fullTokenLength;
      this.columnPosition := currentColumnPosition - fullTokenLength;
    }

    function View(): TokenValue
      reads this
    {
      TokenValue(token, fullTokenLength, columnPosition)
    }

    function GetColumnPosition(): (r: int)
      reads this
      ensures r == View().columnPosition
    {
      columnPosition
    }

    function GetFullTokenLength(): (r: int)
      ensures r == fullTokenLength
    {
      fullTokenLength
    }

    function GetToken(): (r: string)
      ensures r == token
    {
      token
    }

    /** Moves the token to another column; its text and length stay as they were. */
    method SetColumnPosition(columnPosition: int)
      modifies this`columnPosition
      ensures View() == old(View()).(columnPosition := columnPosition)
    {
      this.columnPosition := columnPosition;
    }
  }
}
