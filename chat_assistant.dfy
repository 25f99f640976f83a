/**
 * The canned chat widget: a list of messages, the text being typed, a typing
 * indicator, and a fixed keyword rule that picks the assistant's reply.
 *
 * Clocks and timers are parameters: `now` stands for the current time in
 * milliseconds, and each reply or welcome timer firing is its own method.
 */
module ChatAssistant {
  import opened Wrappers

  // ---------------------------------------------------------------------------
  // Strings
  // ---------------------------------------------------------------------------

  /** ASCII lower-casing of one character. */
  function LowerChar(c: char): (r: char)
    ensures 'A' <= c <= 'Z' ==> r as int == c as int + 32
    ensures !('A' <= c <= 'Z') ==> r == c
    ensures !('A' <= r <= 'Z')
  {
    if 'A' <= c <= 'Z' then (c as int + 32) as char else c
  }

  /** The input lower-cased character by character. */
  function Lower(s: string): (r: string)
    ensures |r| == |s|
    ensures forall i :: 0 <= i < |s| ==> r[i] == LowerChar(s[i])
  {
    if s == [] then [] else [LowerChar(s[0])] + Lower(s[1..])
  }

  /** Lower-casing twice is lower-casing once. */
  lemma LowerIdempotent(s: string)
    ensures Lower(Lower(s)) == Lower(s)
  {
    var l := Lower(s);
    assert forall i :: 0 <= i < |l| ==> Lower(l)[i] == l[i];
  }

  /** Whether `key` occurs in `s` at position `i`. */
  predicate OccursAt(s: string, key: string, i: nat)
  {
    i + |key| <= |s| && s[i..i + |key|] == key
  }

  /** Substring search, as the string `includes` of the source. */
  function Includes(s: string, key: string): bool
    decreases |s|
  {
    if |key| > |s| then false
    else if s[..|key|] == key then true
    else Includes(s[1..], key)
  }

  /** `Includes` holds exactly when the key occurs at some position. */
  lemma {:induction false} IncludesMeans(s: string, key: string)
    ensures Includes(s, key) <==> exists i: nat :: OccursAt(s, key, i)
    decreases |s|
  {
    if |key| > |s| {
    } else if s[..|key|] == key {
      assert OccursAt(s, key, 0);
    } else {
      IncludesMeans(s[1..], key);
      if Includes(s[1..], key) {
        var i: nat :| OccursAt(s[1..], key, i);
        assert s[i + 1..i + 1 + |key|] == s[1..][i..i + |key|];
        assert OccursAt(s, key, i + 1);
      } else {
        forall i: nat | OccursAt(s, key, i) ensures i > 0 && OccursAt(s[1..], key, i - 1) {
          if i == 0 {
            assert false;
          } else {
            assert s[1..][i - 1..i - 1 + |key|] == s[i..i + |key|];
          }
        }
      }
    }
  }

  /** A string containing a key also contains every prefix of that key. */
  lemma IncludesPrefix(s: string, key: string, n: nat)
    requires Includes(s, key) && n <= |key|
    ensures Includes(s, key[..n])
  {
    IncludesMeans(s, key);
    var i: nat :| OccursAt(s, key, i);
    assert s[i..i + n] == key[..n];
    assert OccursAt(s, key[..n], i);
    IncludesMeans(s, key[..n]);
  }

  /**
   * The whitespace and line terminators the string `trim` removes: tab, line
   * feed, vertical tab, form feed, carriage return, space, no-break space, the
   * space separators of Unicode, the line and paragraph separators, and the
   * byte order mark.
   */
  predicate IsWhitespace(c: char)
  {
    c == '\t' || c == '\n' || c == '\U{000B}' || c == '\U{000C}' || c == '\r' || c == ' '
    || c == '\U{00A0}' || c == '\U{1680}' || ('\U{2000}' <= c <= '\U{200A}')
    || c == '\U{2028}' || c == '\U{2029}' || c == '\U{202F}' || c == '\U{205F}'
    || c == '\U{3000}' || c == '\U{FEFF}'
  }

  /** Every character of the string is whitespace. */
  predicate IsBlank(s: string)
  {
    forall i :: 0 <= i < |s| ==> IsWhitespace(s[i])
  }

  /** The string without its leading whitespace. */
  function TrimStart(s: string): string
  {
    if s == [] || !IsWhitespace(s[0]) then s else TrimStart(s[1..])
  }

  /** The string without its trailing whitespace. */
  function TrimEnd(s: string): string
  {
    if s == [] || !IsWhitespace(s[|s| - 1]) then s else TrimEnd(s[..|s| - 1])
  }

  /** The string without leading and trailing whitespace, as the string `trim` of the source. */
  function Trim(s: string): string
  {
    TrimEnd(TrimStart(s))
  }

  /** `TrimStart` drops a blank prefix and stops at the first other character. */
  lemma {:induction false} TrimStartDropsBlankPrefix(s: string)
    ensures |TrimStart(s)| <= |s| && TrimStart(s) == s[|s| - |TrimStart(s)|..]
    ensures TrimStart(s) != [] ==> !IsWhitespace(TrimStart(s)[0])
    ensures IsBlank(s[..|s| - |TrimStart(s)|])
  {
    if s != [] && IsWhitespace(s[0]) {
      TrimStartDropsBlankPrefix(s[1..]);
      var r := TrimStart(s[1..]);
      assert s[..|s| - |r|] == [s[0]] + s[1..][..|s[1..]| - |r|];
    }
  }

  /** `TrimEnd` keeps a prefix of the string and stops at a non-blank last character. */
  lemma {:induction false} TrimEndKeepsPrefix(s: string)
    ensures |TrimEnd(s)| <= |s| && TrimEnd(s) == s[..|TrimEnd(s)|]
    ensures TrimEnd(s) != [] ==> !IsWhitespace(TrimEnd(s)[|TrimEnd(s)| - 1])
    ensures IsBlank(s[|TrimEnd(s)|..])
  {
    if s != [] && IsWhitespace(s[|s| - 1]) {
      TrimEndKeepsPrefix(s[..|s| - 1]);
      var r := TrimEnd(s[..|s| - 1]);
      assert s[|r|..] == s[..|s| - 1][|r|..] + [s[|s| - 1]];
    }
  }

  /** Trimming leaves nothing exactly when the string is all whitespace. */
  lemma TrimEmptyIffBlank(s: string)
    ensures Trim(s) == "" <==> IsBlank(s)
  {
    var t := TrimStart(s);
    TrimStartDropsBlankPrefix(s);
    TrimEndKeepsPrefix(t);
    if Trim(s) == "" {
      assert t == t[|TrimEnd(t)|..];
      assert s == s[..|s| - |t|] + t;
    } else if t != [] {
      assert s[|s| - |t|] == t[0];
    }
  }

  // ---------------------------------------------------------------------------
  // The canned replies
  // ---------------------------------------------------------------------------

  /** The keywords of the keyword replies, in declaration order. */
  const Keywords: seq<string> := ["hello", "hi", "help", "what is investing", "what is risk", "how to start investing"]

  /**
   * Which of the fixed texts an assistant message shows; `KeywordText(i)` is
   * the reply to `Keywords[i]`. The texts themselves are given by `Text`.
   */
  datatype Canned = Fallback | ThanksText | FundsText | KeywordText(index: nat)

  /** A selector that names one of the nine texts. */
  predicate IsCanned(c: Canned)
  {
    c.KeywordText? ==> c.index < |Keywords|
  }

  /** The text a selector stands for. */
  function Text(c: Canned): string
    requires IsCanned(c)
  {
    match c
    case Fallback => "I'm sorry, I don't have enough information to answer that question accurately. Could you provide more details?"
    case ThanksText => "You're welcome! If you have any more questions about your investments or financial planning, feel free to ask."
    case FundsText => "ETFs (Exchange Traded Funds) and mutual funds are both investment vehicles that pool money from multiple investors to buy a diversified portfolio of assets. ETFs trade like stocks throughout the day, while mutual funds trade once at the end of the trading day. Both can be excellent options for diversification, but they differ in terms of cost, tax efficiency, and trading flexibility."
    case KeywordText(i) =>
      if i == 0 then "Hello! I'm your AI financial assistant. How can I help with your investment questions today?"
      else if i == 1 then "Hi there! I'm here to help with your financial questions. What would you like to know about investing?"
      else if i == 2 then "I can help you with various financial topics like investment basics, risk assessment, portfolio diversification, and more. What would you like to learn about?"
      else if i == 3 then "Investing is the process of allocating resources, usually money, with the expectation of generating income or profit over time. Unlike saving, which is setting money aside for future use, investing involves putting your money to work with the goal of growing it."
      else if i == 4 then "In investing, risk refers to the possibility that an investment's actual return may be different than expected, particularly the chance of losing some or all of the original investment. Generally, higher risk investments have the potential for higher returns, while lower risk investments typically offer lower potential returns."
      else "Starting to invest involves a few key steps: 1) Set clear financial goals, 2) Build an emergency fund first, 3) Understand your risk tolerance, 4) Research investment options (stocks, bonds, funds), 5) Start small and consistent, 6) Consider using tax-advantaged accounts like 401(k)s or IRAs, and 7) Regularly review and adjust your investments."
  }

  /** Index of the first keyword, in declaration order, that occurs in the text. */
  function FindKeyword(text: string, keys: seq<string>): (r: Option<nat>)
    ensures r.Some? ==> r.value < |keys| && Includes(text, keys[r.value])
    ensures r.Some? ==> forall j :: 0 <= j < r.value ==> !Includes(text, keys[j])
    ensures r.None? ==> forall j :: 0 <= j < |keys| ==> !Includes(text, keys[j])
  {
    if keys == [] then None
    else if Includes(text, keys[0]) then Some(0)
    else match FindKeyword(text, keys[1..])
      case None => None
      case Some(i) => Some(i + 1)
  }

  /** An index whose keyword matches after none before it did is the one the search finds. */
  lemma {:induction false} FirstMatchIsFound(text: string, keys: seq<string>, i: nat)
    requires i < |keys| && Includes(text, keys[i])
    requires forall j :: 0 <= j < i ==> !Includes(text, keys[j])
    ensures FindKeyword(text, keys) == Some(i)
  {
    if i > 0 {
      forall j | 0 <= j < i - 1 ensures !Includes(text, keys[1..][j]) {
        assert keys[1..][j] == keys[j + 1];
      }
      FirstMatchIsFound(text, keys[1..], i - 1);
    }
  }

  /** Whether the lower-cased input asks about ETFs or mutual funds. */
  predicate AsksAboutFunds(lowered: string)
  {
    Includes(lowered, "etf") || Includes(lowered, "mutual fund")
  }

  /** Whether the lower-cased input says thanks. */
  predicate SaysThanks(lowered: string)
  {
    Includes(lowered, "thank") || Includes(lowered, "thanks")
  }

  /**
   * Which text answers an input, by priority: funds, then thanks, then the
   * first matching keyword, then the default text.
   */
  function ReplyKind(input: string): (c: Canned)
    ensures IsCanned(c)
  {
    var lowered := Lower(input);
    if AsksAboutFunds(lowered) then FundsText
    else if SaysThanks(lowered) then ThanksText
    else match FindKeyword(lowered, Keywords)
      case Some(i) => KeywordText(i)
      case None => Fallback
  }

  /** An input mentioning ETFs or mutual funds gets the funds text, whatever else it says. */
  lemma FundsWin(input: string, key: string, i: nat)
    requires key == "etf" || key == "mutual fund"
    requires OccursAt(Lower(input), key, i)
    ensures ReplyKind(input) == FundsText
  {
    IncludesMeans(Lower(input), key);
  }

  /** Without a funds keyword, an input saying thank gets the thanks text. */
  lemma ThanksWins(input: string, i: nat)
    requires !AsksAboutFunds(Lower(input))
    requires OccursAt(Lower(input), "thank", i)
    ensures ReplyKind(input) == ThanksText
  {
    IncludesMeans(Lower(input), "thank");
  }

  /** Testing for "thanks" after "thank" adds nothing. */
  lemma ThanksImpliesThank(lowered: string)
    ensures SaysThanks(lowered) <==> Includes(lowered, "thank")
  {
    if Includes(lowered, "thanks") {
      IncludesPrefix(lowered, "thanks", 5);
      assert "thanks"[..5] == "thank";
    }
  }

  /** Otherwise the first keyword in declaration order that occurs decides the reply. */
  lemma FirstKeywordWins(input: string, k: nat, i: nat)
    requires !AsksAboutFunds(Lower(input)) && !SaysThanks(Lower(input))
    requires k < |Keywords| && OccursAt(Lower(input), Keywords[k], i)
    requires forall j :: 0 <= j < k ==> !Includes(Lower(input), Keywords[j])
    ensures ReplyKind(input) == KeywordText(k)
  {
    IncludesMeans(Lower(input), Keywords[k]);
    FirstMatchIsFound(Lower(input), Keywords, k);
  }

  /** "hello" is tried before "hi": a greeting containing both gets the reply to "hello". */
  lemma HelloBeforeHi(input: string, i: nat)
    requires !AsksAboutFunds(Lower(input)) && !SaysThanks(Lower(input))
    requires OccursAt(Lower(input), "hello", i)
    ensures ReplyKind(input) == KeywordText(0)
  {
    FirstKeywordWins(input, 0, i);
  }

  /** With no keyword at all the reply is the default text. */
  lemma NoKeywordIsDefault(input: string)
    requires !AsksAboutFunds(Lower(input)) && !SaysThanks(Lower(input))
    requires forall j :: 0 <= j < |Keywords| ==> !Includes(Lower(input), Keywords[j])
    ensures ReplyKind(input) == Fallback
  {
  }

  /** Inputs that agree up to the case of their letters get the same reply. */
  lemma ReplyIgnoresCase(a: string, b: string)
    requires |a| == |b|
    requires forall i :: 0 <= i < |a| ==> LowerChar(a[i]) == LowerChar(b[i])
    ensures ReplyKind(a) == ReplyKind(b)
  {
    assert Lower(a) == Lower(b);
  }

  /** In particular, lower-casing the input first does not change the reply. */
  lemma ReplyOfLowered(input: string)
    ensures ReplyKind(Lower(input)) == ReplyKind(input)
  {
    LowerIdempotent(input);
  }

  /**
   * The reply selection as the source does it: the default text, overwritten
   * by the first keyword reply found, then by the thanks text, then by the
   * funds text.
   */
  method SelectReply(input: string) returns (responseContent: Canned)
    ensures responseContent == ReplyKind(input)
    ensures IsCanned(responseContent)
  {
    responseContent := Fallback;
    var lowercaseInput := Lower(input);
    var i := 0;
    while i < |Keywords|
      invariant 0 <= i <= |Keywords|
      invariant forall j :: 0 <= j < i ==> !Includes(lowercaseInput, Keywords[j])
      invariant responseContent == Fallback
    {
      if Includes(lowercaseInput, Keywords[i]) {
        responseContent := KeywordText(i);
        FirstMatchIsFound(lowercaseInput, Keywords, i);
        break;
      }
      i := i + 1;
    }
    if Includes(lowercaseInput, "thank") || Includes(lowercaseInput, "thanks") {
      responseContent := ThanksText;
    }
    if Includes(lowercaseInput, "etf") || Includes(lowercaseInput, "mutual fund") {
      responseContent := FundsText;
    }
  }

  // ---------------------------------------------------------------------------
  // The widget
  // ---------------------------------------------------------------------------

  datatype Role = UserRole | AssistantRole

  /** What a message shows: text the user typed, or one of the fixed assistant texts. */
  datatype Content = Typed(text: string) | Fixed(reply: Canned)

  /** The characters a message shows on screen. */
  function Shown(c: Content): string
    requires c.Fixed? ==> IsCanned(c.reply)
  {
    match c
    case Typed(text) => text
    case Fixed(reply) => Text(reply)
  }

  /** A chat message; the source's decimal-string ids are kept as the numbers they spell. */
  datatype Message = Message(id: int, role: Role, content: Content, timestamp: int)

  /**
   * The greeting the welcome timer shows: id 1, from the assistant, with the
   * same text as the reply to "hello".
   */
  function Welcome(now: int): (m: Message)
    ensures m.id == 1 && m.role == AssistantRole && m.timestamp == now
    ensures m.content == Fixed(KeywordText(0)) && Keywords[0] == "hello"
  {
    Message(1, AssistantRole, Fixed(KeywordText(0)), now)
  }

  class Chat {
    var messages: seq<Message>
    /** The text in the input box. */
    var input: string
    var isTyping: bool
    /** The inputs whose reply timer is still running, oldest first. */
    var pending: seq<string>
    /** How many welcome timers are still running. */
    var welcomeTimers: nat

    constructor ()
      ensures messages == [] && input == "" && !isTyping && pending == [] && welcomeTimers == 0
    {
      messages := [];
      input := "";
      isTyping := false;
      pending := [];
      welcomeTimers := 0;
    }

    /** Whether the send button is enabled. */
    predicate SendEnabled()
      reads this
    {
      !isTyping && Trim(input) != ""
    }

    /** The effect run on mount and whenever the number of messages changes. */
    method WelcomeEffect()
      modifies this
      ensures |messages| == 0 ==> welcomeTimers == old(welcomeTimers) + 1
      ensures |messages| != 0 ==> welcomeTimers == old(welcomeTimers)
      ensures messages == old(messages) && input == old(input) && isTyping == old(isTyping)
      ensures pending == old(pending)
    {
      if |messages| == 0 {
        welcomeTimers := welcomeTimers + 1;
      }
    }

    /** A welcome timer fires: the message list becomes the greeting alone. */
    method DeliverWelcome(now: int)
      requires welcomeTimers > 0
      modifies this
      ensures messages == [Welcome(now)]
      ensures welcomeTimers == old(welcomeTimers) - 1
      ensures input == old(input) && isTyping == old(isTyping) && pending == old(pending)
    {
      messages := [Welcome(now)];
      welcomeTimers := welcomeTimers - 1;
    }

    /** Typing in the input box. */
    method SetInput(text: string)
      modifies this
      ensures input == text
      ensures messages == old(messages) && isTyping == old(isTyping) && pending == old(pending)
      ensures welcomeTimers == old(welcomeTimers)
    {
      input := text;
    }

    /**
     * Send the typed text: nothing happens when it is blank; otherwise the
     * user's message is appended as typed, the box is cleared, the typing
     * indicator is set and a reply timer starts for that text.
     */
    method Send(now: int)
      modifies this
      ensures IsBlank(old(input)) ==>
                messages == old(messages) && input == old(input) && isTyping == old(isTyping) && pending == old(pending)
      ensures !IsBlank(old(input)) ==>
                messages == old(messages) + [Message(now, UserRole, Typed(old(input)), now)]
                && input == "" && isTyping && pending == old(pending) + [old(input)]
      ensures welcomeTimers == old(welcomeTimers)
    {
      TrimEmptyIffBlank(input);
      if Trim(input) == "" {
        return;
      }
      var userMessage := Message(now, UserRole, Typed(input), now);
      messages := messages + [userMessage];
      pending := pending + [input];
      input := "";
      isTyping := true;
    }

    /** The Enter key without Shift sends, even while a reply is pending. */
    method KeyDown(isEnter: bool, shiftKey: bool, now: int)
      modifies this
      ensures !(isEnter && !shiftKey) ==>
                messages == old(messages) && input == old(input) && isTyping == old(isTyping) && pending == old(pending)
      ensures isEnter && !shiftKey && !IsBlank(old(input)) ==>
                messages == old(messages) + [Message(now, UserRole, Typed(old(input)), now)]
                && input == "" && isTyping && pending == old(pending) + [old(input)]
      ensures isEnter && !shiftKey && IsBlank(old(input)) ==>
                messages == old(messages) && input == old(input) && isTyping == old(isTyping) && pending == old(pending)
      ensures welcomeTimers == old(welcomeTimers)
    {
      if isEnter && !shiftKey {
        Send(now);
      }
    }

    /**
     * The oldest reply timer fires: the reply to the text captured when it
     * was sent is appended and the typing indicator is cleared.
     */
    method CompleteReply(now: int)
      requires pending != []
      modifies this
      ensures messages == old(messages) + [Message(now + 1, AssistantRole, Fixed(ReplyKind(old(pending[0]))), now)]
      ensures pending == old(pending[1..])
      ensures !isTyping
      ensures input == old(input) && welcomeTimers == old(welcomeTimers)
    {
      var responseContent := SelectReply(pending[0]);
      var aiMessage := Message(now + 1, AssistantRole, Fixed(responseContent), now);
      messages := messages + [aiMessage];
      pending := pending[1..];
      isTyping := false;
    }
  }
}
