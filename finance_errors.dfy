/**
 * The finance-domain exceptions: the message each constructor sets by default
 * and the user-facing chat message each kind of error gives.
 */
module FinanceErrors {
  import opened Wrappers
  import Tools

  /** The exception hierarchy, one constructor per class; every error carries
      its message, and an invalid-symbol error also the symbol it was given. */
  datatype FinanceError =
    | Generic(message: string)
    | MissingStockSymbol(message: string)
    | InsufficientStockSymbols(message: string)
    | InvalidStockSymbol(symbol: Option<string>, message: string)

  const MissingSymbolDefault: string :=
    "No stock symbol provided. Please specify a valid stock symbol (e.g., AAPL for Apple)."
  const InsufficientSymbolsDefault: string :=
    "At least two stock symbols are required for comparison. Please provide more symbols."
  const InvalidSymbolPrefix: string := "Invalid stock symbol: "
  const InvalidSymbolDefault: string := "Invalid stock symbol provided."

  /** Python truthiness of the optional symbol: present and non-empty. */
  predicate Truthy(symbol: Option<string>)
  {
    symbol.Some? && symbol.value != []
  }

  /** `MissingStockSymbolError(message)`; `None` is the omitted argument. */
  function NewMissingStockSymbol(message: Option<string>): (e: FinanceError)
    ensures e.MissingStockSymbol?
    ensures e.message == (if message.Some? then message.value else MissingSymbolDefault)
  {
    MissingStockSymbol(message.GetOr(MissingSymbolDefault))
  }

  /** `InsufficientStockSymbolsError(message)`; `None` is the omitted argument. */
  function NewInsufficientStockSymbols(message: Option<string>): (e: FinanceError)
    ensures e.InsufficientStockSymbols?
    ensures e.message == (if message.Some? then message.value else InsufficientSymbolsDefault)
  {
    InsufficientStockSymbols(message.GetOr(InsufficientSymbolsDefault))
  }

  /** `InvalidStockSymbolError(symbol, message)`: a given message is kept; without
      one, the message names the symbol exactly when the symbol is truthy. */
  function NewInvalidStockSymbol(symbol: Option<string>, message: Option<string>): (e: FinanceError)
    ensures e.InvalidStockSymbol? && e.symbol == symbol
    ensures message.Some? ==> e.message == message.value
    ensures message.None? && Truthy(symbol) ==> e.message == InvalidSymbolPrefix + symbol.value
    ensures message.None? && !Truthy(symbol) ==> e.message == InvalidSymbolDefault
  {
    var m := if message.Some? then message.value
             else if Truthy(symbol) then InvalidSymbolPrefix + symbol.value
             else InvalidSymbolDefault;
    InvalidStockSymbol(symbol, m)
  }

  const GenericChat: string := "An error occurred in the finance domain."
  const MissingSymbolChat: string :=
    "It looks like you haven't provided any stock symbols. "
    + "To assist you, could you please specify a stock symbol, such as **AAPL** for Apple or **TSLA** for Tesla? "
    + "I'm here to help with your financial queries!"
  const InsufficientSymbolsChat: string :=
    "To compare stocks, I need at least two stock symbols. "
    + "For example, you could compare **AAPL** (Apple) with **GOOG** (Google). "
    + "Could you please provide at least two symbols for me to analyze and compare?"
  const InvalidSymbolChatPrefix: string := "The stock symbol "
  const InvalidSymbolChatSuffix: string :=
    " seems to be invalid. "
    + "Please double-check the symbol and try again. "
    + "For instance, **AAPL** represents Apple, and **MSFT** represents Microsoft. "
    + "Let me know the correct symbol, and I'll assist you further!"
  const InvalidSymbolChatDefault: string :=
    "The stock symbol provided seems to be invalid. "
    + "Please double-check the symbol and try again. "
    + "For instance, **AAPL** represents Apple, and **MSFT** represents Microsoft."

  /** Markdown bold. */
  function Bold(text: string): string
  {
    "**" + text + "**"
  }

  /** `chat_message()`: the text shown to the user for an error. */
  function ChatMessage(e: FinanceError): (r: string)
    ensures |r| > 0
    ensures e.Generic? ==> r == GenericChat
    ensures e.MissingStockSymbol? ==> r == MissingSymbolChat
    ensures e.InsufficientStockSymbols? ==> r == InsufficientSymbolsChat
    ensures e.InvalidStockSymbol? && Truthy(e.symbol) ==>
              && |r| == |InvalidSymbolChatPrefix| + |e.symbol.value| + 4 + |InvalidSymbolChatSuffix|
              && InvalidSymbolChatPrefix + Bold(e.symbol.value) <= r
              && r[|r| - |InvalidSymbolChatSuffix|..] == InvalidSymbolChatSuffix
    ensures e.InvalidStockSymbol? && !Truthy(e.symbol) ==> r == InvalidSymbolChatDefault
  {
    match e
    case Generic(_) => GenericChat
    case MissingStockSymbol(_) => MissingSymbolChat
    case InsufficientStockSymbols(_) => InsufficientSymbolsChat
    case InvalidStockSymbol(symbol, _) =>
      if Truthy(symbol) then InvalidSymbolChatPrefix + Bold(symbol.value) + InvalidSymbolChatSuffix
      else InvalidSymbolChatDefault
  }

  /** `part` occurs in `s`. */
  predicate Contains(s: string, part: string)
  {
    exists i :: 0 <= i <= |s| && part <= s[i..]
  }

  /** The chat message never depends on the error's message text; the generic
      error always gives the generic text. */
  lemma ChatIgnoresMessage(e: FinanceError, message: string)
    ensures ChatMessage(e.(message := message)) == ChatMessage(e)
    ensures e.Generic? ==> ChatMessage(e) == GenericChat
  {
  }

  /** For an invalid symbol, the chat message names the symbol in bold exactly
      when the symbol is truthy, and is one fixed text otherwise. */
  lemma InvalidChatNamesSymbol(symbol: Option<string>, message: Option<string>)
    ensures var chat := ChatMessage(NewInvalidStockSymbol(symbol, message));
      && (Truthy(symbol) ==> Contains(chat, Bold(symbol.value)))
      && (!Truthy(symbol) ==> chat == InvalidSymbolChatDefault)
  {
    if Truthy(symbol) {
      var chat := ChatMessage(NewInvalidStockSymbol(symbol, message));
      var bold := Bold(symbol.value);
      var i := |InvalidSymbolChatPrefix|;
      assert chat[i..] == bold + InvalidSymbolChatSuffix;
    }
  }

  /** Two truthy symbols give the same chat message only when they are the
      same symbol, whatever the messages. */
  lemma InvalidChatIdentifiesSymbol(x: string, y: string, mx: Option<string>, my: Option<string>)
    requires x != [] && y != []
    ensures ChatMessage(NewInvalidStockSymbol(Some(x), mx)) == ChatMessage(NewInvalidStockSymbol(Some(y), my)) ==> x == y
  {
    var cx := ChatMessage(NewInvalidStockSymbol(Some(x), mx));
    var cy := ChatMessage(NewInvalidStockSymbol(Some(y), my));
    if cx == cy {
      var p := |InvalidSymbolChatPrefix| + 2;
      assert |x| == |y|;
      assert (InvalidSymbolChatPrefix + Bold(x))[p..p + |x|] == x;
      assert (InvalidSymbolChatPrefix + Bold(y))[p..p + |y|] == y;
    }
  }

  /** Without a message, the invalid-symbol error for a non-empty symbol has the
      same message the single-stock indicators tool raises for it. */
  lemma InvalidMessageMatchesTool(symbol: string)
    requires symbol != []
    ensures NewInvalidStockSymbol(Some(symbol), None).message == Tools.InvalidSymbolPrefix + symbol
  {
  }
}
