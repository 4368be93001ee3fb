/** The chat front end: the set of chats waiting for a ticker, the `/start`
    command that puts a chat in it, the ticker handler that validates and
    normalises the user's text, runs the analysis and renders the report,
    and the fallback for everyone else. Messages the bot sends are returned
    as values in the order they are sent. */
module Bot {
  import opened Numerics
  import opened Text
  import opened PumpAnalyzer

  type ChatId = int

  const Suffix: string := "USDT"
  const StartCommand: string := "start"

  /** `text` if it already ends with "USDT", otherwise `text + "USDT"`. */
  function Normalize(text: string): (r: string)
    ensures EndsWith(r, Suffix)
    ensures text <= r
    ensures EndsWith(text, Suffix) ==> r == text
    ensures !EndsWith(text, Suffix) ==> |r| == |text| + |Suffix|
  {
    if EndsWith(text, Suffix) then text else text + Suffix
  }

  lemma NormalizeIdempotent(text: string)
    ensures Normalize(Normalize(text)) == Normalize(text)
  {
  }

  /** Appending "USDT" keeps an upper-case text upper case. */
  lemma {:induction false} NormalizeKeepsUpper(text: string)
    requires IsUpper(text)
    ensures IsUpper(Normalize(text))
  {
    if !EndsWith(text, Suffix) {
      UpperAppend(text, Suffix);
      assert Upper(Suffix) == Suffix;
    }
  }

  /** What the ticker handler makes of a message text. */
  datatype Intake = Empty | NotUpper | Symbol(symbol: string)

  /** Strip the text, refuse it when nothing is left or when it is not all
      upper case, otherwise normalise it to a symbol. */
  function ReadTicker(text: string): (r: Intake)
    ensures r == Empty <==> AllSpace(text)
    ensures r == NotUpper <==> !AllSpace(text) && !IsUpper(Strip(text))
    ensures r.Symbol? ==> && EndsWith(r.symbol, Suffix)
                          && IsUpper(r.symbol)
                          && Strip(text) <= r.symbol
                          && |r.symbol| <= |Strip(text)| + |Suffix|
    ensures r.Symbol? && EndsWith(Strip(text), Suffix) ==> r.symbol == Strip(text)
    ensures r.Symbol? && !EndsWith(Strip(text), Suffix) ==> r.symbol == Strip(text) + Suffix
  {
    var t := Strip(text);
    if t == [] then Empty
    else if !IsUpper(t) then NotUpper
    else
      NormalizeKeepsUpper(t);
      Symbol(Normalize(t))
  }

  /** `int(score * 100)`, the percentage shown in the report. */
  function ScorePercent(score: real): (r: int)
    ensures 0.0 <= score <= 1.0 ==> 0 <= r <= 100
    ensures 0.0 <= score ==> r as real <= score * 100.0 < r as real + 1.0
  {
    Truncate(score * 100.0)
  }

  /** The percentage of any successful analysis is between 0 and 100. */
  lemma ReportPercentInRange(market: Market)
    requires Analysis(market).Ok?
    ensures 0 <= ScorePercent(Analysis(market).value.score) <= 100
  {
  }

  datatype Line = Header(symbol: string) | ScoreLine(percent: int) | Blank | Bullet(explanation: Explanation)

  /** A report message: header, score line, blank line, then one bullet per
      explanation in the analysis' order. */
  predicate IsReport(lines: seq<Line>, symbol: string, score: real, explanations: seq<Explanation>)
  {
    && |lines| == 3 + |explanations|
    && lines[..3] == [Header(symbol), ScoreLine(ScorePercent(score)), Blank]
    && forall k :: 0 <= k < |explanations| ==> lines[3 + k] == Bullet(explanations[k])
  }

  method RenderReport(symbol: string, score: real, explanations: seq<Explanation>) returns (lines: seq<Line>)
    ensures IsReport(lines, symbol, score, explanations)
  {
    var percent := ScorePercent(score);
    lines := [Header(symbol), ScoreLine(percent), Blank];
    for i := 0 to |explanations|
      invariant |lines| == 3 + i
      invariant lines[..3] == [Header(symbol), ScoreLine(percent), Blank]
      invariant forall k :: 0 <= k < i ==> lines[3 + k] == Bullet(explanations[k])
    {
      lines := lines + [Bullet(explanations[i])];
    }
  }

  datatype Reply =
    | Welcome
    | AskTicker
    | EmptyTicker
    | NotUpperCase
    | Analyzing(symbol: string)
    | AnalysisFailed(error: Error)
    | ReportMessage(lines: seq<Line>)
    | StartHint

  /** What a message to the ticker handler does, given the waiting set
      before and after and the messages sent: a refused text changes
      nothing; an accepted one takes exactly its chat out of the set and
      answers with the symbol, then the report or the failure. */
  ghost predicate TickerOutcome(chat: ChatId, text: string, exchange: string -> Market,
                                before: set<ChatId>, after: set<ChatId>, sent: seq<Reply>)
  {
    match ReadTicker(text)
    case Empty => sent == [EmptyTicker] && after == before
    case NotUpper => sent == [NotUpperCase] && after == before
    case Symbol(symbol) =>
      && after == before - {chat}
      && |sent| == 2
      && sent[0] == Analyzing(symbol)
      && match Analysis(exchange(symbol))
         case Err(e) => sent[1] == AnalysisFailed(e)
         case Ok(report) => sent[1].ReportMessage? && IsReport(sent[1].lines, symbol, report.score, report.explanations)
  }

  class TickerBot {
    /** The chats that sent `/start` and have not yet given a valid ticker. */
    var waiting: set<ChatId>

    constructor ()
      ensures waiting == {}
    {
      waiting := {};
    }

    method Start(chat: ChatId) returns (sent: seq<Reply>)
      modifies this
      ensures waiting == old(waiting) + {chat}
      ensures sent == [Welcome, AskTicker]
    {
      sent := [Welcome, AskTicker];
      waiting := waiting + {chat};
    }

    /** `exchange` gives what the exchange answers for a symbol. */
    method HandleTicker(chat: ChatId, text: string, exchange: string -> Market) returns (sent: seq<Reply>)
      modifies this
      ensures TickerOutcome(chat, text, exchange, old(waiting), waiting, sent)
    {
      var intake := ReadTicker(text);
      match intake {
        case Empty =>
          sent := [EmptyTicker];
        case NotUpper =>
          sent := [NotUpperCase];
        case Symbol(symbol) =>
          waiting := waiting - {chat};
          sent := [Analyzing(symbol)];
          var result := AnalyzeSymbol(exchange(symbol));
          match result {
            case Err(e) =>
              sent := sent + [AnalysisFailed(e)];
            case Ok(report) =>
              var lines := RenderReport(symbol, report.score, report.explanations);
              sent := sent + [ReportMessage(lines)];
          }
      }
    }

    /** Handlers are tried in the order they are registered: `/start`, then
        the ticker handler for waiting chats, then the fallback. */
    method OnMessage(chat: ChatId, text: string, exchange: string -> Market) returns (sent: seq<Reply>)
      modifies this
      ensures Command(text) == Some(StartCommand) ==>
                waiting == old(waiting) + {chat} && sent == [Welcome, AskTicker]
      ensures Command(text) != Some(StartCommand) && chat in old(waiting) ==>
                TickerOutcome(chat, text, exchange, old(waiting), waiting, sent)
      ensures Command(text) != Some(StartCommand) && chat !in old(waiting) ==>
                waiting == old(waiting) && sent == [StartHint]
    {
      if Command(text) == Some(StartCommand) {
        sent := Start(chat);
      } else if chat in waiting {
        sent := HandleTicker(chat, text, exchange);
      } else {
        sent := [StartHint];
      }
    }
  }
}
