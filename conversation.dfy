/** The command / next-step conversation: each command prompts for a
    location and leaves one pending flow for its chat; the next text from
    that chat is geocoded, a miss re-prompts and keeps the flow pending, a
    match consumes the flow and runs its formatter once with the
    coordinates. */
module Conversation {
  import opened Optional

  type ChatId = int

  /** Coordinates as the geocoder resolves them. */
  datatype Coords = Coords(lat: real, lon: real)

  /** The four continuations a command can leave pending:
      fetch_weather, fetch_hourly_forecast, fetch_four_day_forecast, fetch_air_quality. */
  datatype Flow = CurrentWeather | Hourly | FourDay | AirQuality

  /** The commands the bot answers. */
  datatype Command = Start | WeatherCommand | HourlyCommand | FourDayCommand | AirQualityCommand

  /** An incoming update: a command, or a free text. Either way located is
      what the geocoder makes of the message's text. A chat with a pending
      continuation hands every message to it, commands included, so the
      text of a command is then geocoded like any other. */
  datatype Event =
    | Issued(chat: ChatId, cmd: Command, located: Option<Coords>)
    | Typed(chat: ChatId, located: Option<Coords>)

  /** What the bot does in answer to one update. */
  datatype Effect = Replied(text: string) | Dispatched(flow: Flow, at: Coords) | Ignored

  /** The pending next-step continuation of each chat. */
  type Pending = map<ChatId, Flow>

  const Welcome := "Hello! Welcome to ZiWeatherBot. Use commands like /weather, /hourly, /4day, or /airquality to get weather information."
  const LocationNotFound := "Location not found. Please try again with a valid location."

  /** The continuation a command registers; /start registers none. */
  function Registers(cmd: Command): (flow: Option<Flow>)
    ensures flow.None? <==> cmd == Start
  {
    match cmd
    case Start => None
    case WeatherCommand => Some(CurrentWeather)
    case HourlyCommand => Some(Hourly)
    case FourDayCommand => Some(FourDay)
    case AirQualityCommand => Some(AirQuality)
  }

  /** The text a command sends: the welcome for /start, a location prompt otherwise. */
  function Answer(cmd: Command): (text: string)
    ensures text == Welcome <==> cmd == Start
    ensures text != LocationNotFound
  {
    match cmd
    case Start => Welcome
    case WeatherCommand => "Please enter the location for which you want the current weather:"
    case HourlyCommand => "Please enter the location for an hourly weather forecast:"
    case FourDayCommand => "Please enter the location for the 4-day weather outlook:"
    case AirQualityCommand => "Please enter the location for air quality information:"
  }

  /** Each command routes to its own continuation, and every continuation
      is reachable from exactly one command. */
  lemma RoutingIsOneToOne(a: Command, b: Command, f: Flow)
    ensures Registers(a).Some? && Registers(a) == Registers(b) ==> a == b
    ensures exists c :: Registers(c) == Some(f)
  {
    match f
    case CurrentWeather => assert Registers(WeatherCommand) == Some(f);
    case Hourly => assert Registers(HourlyCommand) == Some(f);
    case FourDay => assert Registers(FourDayCommand) == Some(f);
    case AirQuality => assert Registers(AirQualityCommand) == Some(f);
  }

  /** The table after a command: a registering command sets its chat's flow,
      replacing any pending one. */
  function AfterCommand(p: Pending, chat: ChatId, cmd: Command): (q: Pending)
    ensures q.Keys == if cmd == Start then p.Keys else p.Keys + {chat}
    ensures forall c :: c in q && (c != chat || cmd == Start) ==> q[c] == p[c]
    ensures cmd != Start ==> q[chat] == Registers(cmd).value
  {
    match Registers(cmd)
    case None => p
    case Some(f) => p[chat := f]
  }

  /** One update: the new table and what the bot does. A pending
      continuation takes the message first, whether or not it is a command;
      only a chat with nothing pending reaches the command handlers. */
  function Step(p: Pending, e: Event): (r: (Pending, Effect))
    ensures r.0 - {e.chat} == p - {e.chat}
    ensures r.1.Dispatched? <==> e.chat in p && e.located.Some?
    ensures r.1.Dispatched? ==> r.1.flow == p[e.chat] && r.1.at == e.located.value && e.chat !in r.0
    ensures e.chat in p && e.located.None? ==> r == (p, Replied(LocationNotFound))
    ensures e.chat !in p && e.Typed? ==> r == (p, Ignored)
    ensures e.chat !in p && e.Issued? ==> r == (AfterCommand(p, e.chat, e.cmd), Replied(Answer(e.cmd)))
  {
    if e.chat in p then
      match e.located
      case None => (p, Replied(LocationNotFound))
      case Some(c) =>
        assert (p - {e.chat}) - {e.chat} == p - {e.chat};
        (p - {e.chat}, Dispatched(p[e.chat], c))
    else
      match e
      case Issued(chat, cmd, _) =>
        assert AfterCommand(p, chat, cmd) - {chat} == p - {chat};
        (AfterCommand(p, chat, cmd), Replied(Answer(cmd)))
      case Typed(_, _) => (p, Ignored)
  }

  /** A sequence of updates, processed in order. */
  function Run(p: Pending, es: seq<Event>): (r: (Pending, seq<Effect>))
    ensures |r.1| == |es|
    decreases |es|
  {
    if es == [] then (p, [])
    else
      var first := Step(p, es[0]);
      var rest := Run(first.0, es[1..]);
      (rest.0, [first.1] + rest.1)
  }

  /** A command from a chat with a pending flow is no command at all: the
      continuation receives it as location text. */
  lemma PendingTakesPrecedence(p: Pending, chat: ChatId, cmd: Command, located: Option<Coords>)
    requires chat in p
    ensures Step(p, Issued(chat, cmd, located)) == Step(p, Typed(chat, located))
  {
  }

  /** /start from a chat with nothing pending answers with the welcome and
      leaves every chat's pending flow as it was. */
  lemma StartRegistersNothing(p: Pending, chat: ChatId, located: Option<Coords>)
    requires chat !in p
    ensures Step(p, Issued(chat, Start, located)) == (p, Replied(Welcome))
  {
  }

  /** Of two commands in a row the first one decides: the second is the
      first's location text, so it either re-prompts with the first flow
      still pending or dispatches the first flow. */
  lemma FirstCommandWins(p: Pending, chat: ChatId, first: Command, l1: Option<Coords>,
                         second: Command, l2: Option<Coords>)
    requires chat !in p && first != Start
    ensures var r := Step(Step(p, Issued(chat, first, l1)).0, Issued(chat, second, l2));
            (l2.None? ==> r == (AfterCommand(p, chat, first), Replied(LocationNotFound)))
            && (l2.Some? ==> r == (p, Dispatched(Registers(first).value, l2.value)))
  {
    var p1 := AfterCommand(p, chat, first);
    assert Step(p, Issued(chat, first, l1)).0 == p1;
    assert chat in p1 && p1[chat] == Registers(first).value;
    PendingTakesPrecedence(p1, chat, second, l2);
    assert p1 - {chat} == p;
  }

  /** Processing a + b is processing a, then b from where a left off. */
  lemma {:induction false} RunAppend(p: Pending, a: seq<Event>, b: seq<Event>)
    ensures Run(p, a + b) == (Run(Run(p, a).0, b).0, Run(p, a).1 + Run(Run(p, a).0, b).1)
    decreases |a|
  {
    if a == [] {
      assert a + b == b;
      assert Run(p, a) == (p, []);
      assert [] + Run(p, b).1 == Run(p, b).1;
    } else {
      var first := Step(p, a[0]);
      var mid := Run(first.0, a[1..]);
      var tail := Run(mid.0, b);
      assert Run(p, a) == (mid.0, [first.1] + mid.1);
      assert Run(p, a + b) == (tail.0, [first.1] + (mid.1 + tail.1)) by {
        assert (a + b)[0] == a[0];
        assert (a + b)[1..] == a[1..] + b;
        RunAppend(first.0, a[1..], b);
      }
      assert [first.1] + (mid.1 + tail.1) == ([first.1] + mid.1) + tail.1;
    }
  }

  /** A single update run on its own is one Step. */
  lemma RunOne(p: Pending, e: Event)
    ensures Run(p, [e]) == (Step(p, e).0, [Step(p, e).1])
  {
    var first := Step(p, e);
    assert [e][0] == e && [e][1..] == [];
    assert Run(first.0, []) == (first.0, []);
    assert [first.1] + [] == [first.1];
  }

  /** n texts from one chat whose location the geocoder cannot resolve. */
  function Misses(chat: ChatId, n: nat): (es: seq<Event>)
    ensures |es| == n && forall i :: 0 <= i < n ==> es[i] == Typed(chat, None)
  {
    seq(n, _ => Typed(chat, None))
  }

  /** Unresolvable locations never run a formatter: each one re-prompts and
      the same flow stays pending, however many there are. */
  lemma {:induction false} RetryKeepsFlow(p: Pending, chat: ChatId, n: nat)
    requires chat in p
    ensures Run(p, Misses(chat, n)) == (p, seq(n, _ => Replied(LocationNotFound)))
    decreases n
  {
    if n > 0 {
      var es := Misses(chat, n);
      assert es[1..] == Misses(chat, n - 1);
      assert Step(p, es[0]) == (p, Replied(LocationNotFound));
      RetryKeepsFlow(p, chat, n - 1);
      assert Run(p, es) == (p, [Replied(LocationNotFound)] + seq(n - 1, _ => Replied(LocationNotFound)));
      assert [Replied(LocationNotFound)] + seq(n - 1, _ => Replied(LocationNotFound))
             == seq(n, _ => Replied(LocationNotFound));
    } else {
      assert Misses(chat, n) == [];
      assert seq(n, _ => Replied(LocationNotFound)) == [];
    }
  }

  /** A registering command from a chat with nothing pending, then any
      number of misses: the command's flow is pending throughout, and the
      bot has answered the command and re-prompted once per miss. */
  lemma CommandThenMisses(p: Pending, chat: ChatId, cmd: Command, l: Option<Coords>, n: nat)
    requires chat !in p && cmd != Start
    ensures Run(p, [Issued(chat, cmd, l)] + Misses(chat, n))
            == (AfterCommand(p, chat, cmd), [Replied(Answer(cmd))] + seq(n, _ => Replied(LocationNotFound)))
  {
    var p1 := AfterCommand(p, chat, cmd);
    assert Run(p, [Issued(chat, cmd, l)]) == (p1, [Replied(Answer(cmd))]) by {
      RunOne(p, Issued(chat, cmd, l));
    }
    RetryKeepsFlow(p1, chat, n);
    RunAppend(p, [Issued(chat, cmd, l)], Misses(chat, n));
  }

  /** A whole conversation from a chat with nothing pending: a registering
      command, any number of misses, then a resolved location. The formatter
      of the command's flow runs exactly once, last, with the resolved
      coordinates, and the table is left as it was before the command. */
  lemma FlowCompletes(p: Pending, chat: ChatId, cmd: Command, l: Option<Coords>, n: nat, c: Coords)
    requires chat !in p && cmd != Start
    ensures var r := Run(p, [Issued(chat, cmd, l)] + Misses(chat, n) + [Typed(chat, Some(c))]);
            r.0 == p
            && r.1 == [Replied(Answer(cmd))] + seq(n, _ => Replied(LocationNotFound))
                      + [Dispatched(Registers(cmd).value, c)]
  {
    var p1 := AfterCommand(p, chat, cmd);
    var front, hit := [Issued(chat, cmd, l)] + Misses(chat, n), [Typed(chat, Some(c))];
    var replies, done := [Replied(Answer(cmd))] + seq(n, _ => Replied(LocationNotFound)),
                         [Dispatched(Registers(cmd).value, c)];
    CommandThenMisses(p, chat, cmd, l, n);
    assert Run(p, front) == (p1, replies);
    assert Run(p1, hit) == (p, done) by {
      assert p1 - {chat} == p;
      RunOne(p1, Typed(chat, Some(c)));
    }
    RunAppend(p, front, hit);
    assert Run(p, front + hit) == (p, replies + done);
  }

  /** Updates from other chats leave a chat's pending flow untouched. */
  lemma {:induction false} OtherChatsUnaffected(p: Pending, es: seq<Event>, chat: ChatId)
    requires forall i :: 0 <= i < |es| ==> es[i].chat != chat
    ensures chat in Run(p, es).0 <==> chat in p
    ensures chat in p ==> Run(p, es).0[chat] == p[chat]
    decreases |es|
  {
    if es != [] {
      OtherChatsUnaffected(Step(p, es[0]).0, es[1..], chat);
    }
  }

  /** The bot's next-step registry: one pending flow per chat. */
  class Registry {
    var pending: Pending

    constructor ()
      ensures pending == map[]
    {
      pending := map[];
    }

    /** A command whose text the geocoder resolves to located. A pending
        continuation takes it as location text; otherwise send the
        command's answer and register its continuation, if any. */
    method OnCommand(chat: ChatId, cmd: Command, located: Option<Coords>) returns (effect: Effect)
      modifies this
      ensures chat in old(pending) ==> (pending, effect) == Step(old(pending), Typed(chat, located))
      ensures chat !in old(pending) ==> effect == Replied(Answer(cmd))
      ensures chat !in old(pending) && cmd == Start ==> pending == old(pending)
      ensures chat !in old(pending) && cmd != Start ==>
                pending == old(pending)[chat := Registers(cmd).value]
      ensures (pending, effect) == Step(old(pending), Issued(chat, cmd, located))
    {
      if chat in pending {
        effect := OnText(chat, located);
        return;
      }
      effect := Replied(Answer(cmd));
      var flow := Registers(cmd);
      if flow.Some? {
        pending := pending[chat := flow.value];
      }
    }

    /** A free text whose location the geocoder resolved to located. With
        nothing pending it is ignored; a miss re-prompts and keeps the flow;
        a match consumes the flow and dispatches it once. */
    method OnText(chat: ChatId, located: Option<Coords>) returns (effect: Effect)
      modifies this
      ensures chat !in old(pending) ==> pending == old(pending) && effect == Ignored
      ensures chat in old(pending) && located.None? ==>
                pending == old(pending) && effect == Replied(LocationNotFound)
      ensures chat in old(pending) && located.Some? ==>
                pending == old(pending) - {chat} && effect == Dispatched(old(pending)[chat], located.value)
      ensures (pending, effect) == Step(old(pending), Typed(chat, located))
    {
      if chat !in pending {
        return Ignored;
      }
      var flow := pending[chat];
      match located {
        case None =>
          effect := Replied(LocationNotFound);
        case Some(c) =>
          pending := pending - {chat};
          effect := Dispatched(flow, c);
      }
    }
  }
}
