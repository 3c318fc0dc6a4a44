/**
 Opening the modem as a conversation: for every modem and all answers the requests that go out, when the scan is started,
 what the caller is told, and what is then open and held. The runs of the protocol are proved to be it.
 */
module DeviceConversation {
  import opened Wrappers
  import opened DeviceOpen

  // ---- The line of requests ----

  function NasLine(m: Modem): seq<Request> {
    if Nas in m.clients then [] else [Allocate(Nas)]
  }

  function WdsLine(m: Modem): seq<Request> {
    (if Wds in m.clients then [] else [Allocate(Wds)]) + NasLine(m)
  }

  function QueryLine(m: Modem): seq<Request> {
    [GetRevision, GetVersion, GetIds, GetMode] + WdsLine(m)
  }

  function DmsLine(m: Modem): seq<Request> {
    (if Dms in m.clients then [] else [Allocate(Dms)]) + QueryLine(m)
  }

  // A device that is not open is created anew; then what the missing clients and the queries take.
  function Line(m: Modem): seq<Request> {
    (if m.created && m.open then [] else [CreateDevice, OpenDevice]) + DmsLine(m)
  }

  // ---- What is said over it ----

  datatype Talk = Talk(said: seq<Action>, modem: Modem, over: bool)

  // What a granted request brings.
  function Gained(m: Modem, q: Request): Modem {
    match q
    case CreateDevice => m.(created := true, open := false)
    case OpenDevice => m.(open := true)
    case Allocate(service) => m.(clients := m.clients + {service})
    case _ => m
  }

  // The last words, to a caller who is there to hear them.
  function Farewell(m: Modem, online: bool, callback: bool): seq<Action> {
    if callback then [Notify(m.created && m.open, online), Release] else [Release]
  }

  predicate Query(q: Request) {
    q in {GetRevision, GetVersion, GetIds, GetMode}
  }

  // The line spoken over the answers: a device or a client refused ends it, a query refused does not.
  function Spoken(line: seq<Request>, m: Modem, online: bool, callback: bool, a: seq<Reply>): Talk
    decreases |line|
  {
    if line == [] then Talk([StartScan] + Farewell(m, online, callback), m, true)
    else if a == [] then Talk([Ask(line[0])], m, false)
    else
      var heard := [Ask(line[0]), Answer(line[0], a[0].ok)];
      if !a[0].ok && !Query(line[0]) then Talk(heard + Farewell(m, online, callback), m, true)
      else
        var says := if line[0] == GetMode then a[0].ok && a[0].mode == Online else online;
        var later := Spoken(line[1..], Gained(m, line[0]), says, callback, a[1..]);
        later.(said := heard + later.said)
  }

  // ---- The protocol speaks it ----

  function From(q: Request, m: Modem): seq<Request> {
    match q
    case CreateDevice => [q, OpenDevice] + DmsLine(m)
    case OpenDevice => [q] + DmsLine(m)
    case Allocate(Dms) => [q] + QueryLine(m)
    case GetRevision => QueryLine(m)
    case GetVersion => [q, GetIds, GetMode] + WdsLine(m)
    case GetIds => [q, GetMode] + WdsLine(m)
    case GetMode => [q] + WdsLine(m)
    case Allocate(Wds) => [q] + NasLine(m)
    case Allocate(Nas) => [q]
  }

  // Behind opening the device it is open, and the run means to say so.
  predicate Fit(p: Progress, q: Request) {
    if q == CreateDevice || q == OpenDevice then !(p.modem.created && p.modem.open) && (q == OpenDevice ==> p.modem.created)
    else p.ready && p.modem.created && p.modem.open
  }

  predicate Speaks(end: Progress, log: seq<Action>, talk: Talk) {
    end.log == log + talk.said && end.modem == talk.modem && (end.holder.None? <==> talk.over)
  }

  lemma SpeaksSince(end: Progress, log: seq<Action>, more: seq<Action>, talk: Talk)
    requires Speaks(end, log + more, talk)
    ensures Speaks(end, log, talk.(said := more + talk.said))
  {
    assert log + more + talk.said == log + (more + talk.said);
  }

  function Exchange(q: Request, r: Reply): seq<Action> {
    [Ask(q), Answer(q, r.ok)]
  }

  // The run after an answer that carries it on.
  function Carried(p: Progress, q: Request, r: Reply): Progress {
    p.(modem := Gained(p.modem, q),
       ready := q == OpenDevice || p.ready,
       mode := if q == GetMode then (if r.ok then r.mode else Offline) else p.mode,
       log := p.log + Exchange(q, r))
  }

  // On with a line that may be through.
  function Onwards(p: Progress, line: seq<Request>, callback: bool): Progress {
    if line == [] then Scanned(p, callback) else Asking(p, line[0])
  }

  // What is left of the line behind a request.
  function Behind(q: Request, m: Modem): seq<Request> {
    match q
    case CreateDevice => [OpenDevice] + DmsLine(m)
    case OpenDevice => DmsLine(m)
    case Allocate(Dms) => QueryLine(m)
    case GetRevision => [GetVersion, GetIds, GetMode] + WdsLine(m)
    case GetVersion => [GetIds, GetMode] + WdsLine(m)
    case GetIds => [GetMode] + WdsLine(m)
    case GetMode => WdsLine(m)
    case Allocate(Wds) => NasLine(m)
    case Allocate(Nas) => []
  }

  lemma FromBehind(q: Request, m: Modem)
    ensures From(q, m) != [] && From(q, m)[0] == q && From(q, m)[1..] == Behind(q, m)
  {
  }

  lemma GainedBehind(q: Request, m: Modem)
    ensures Behind(q, Gained(m, q)) == Behind(q, m)
  {
  }

  lemma WdsLineFrom(m: Modem)
    ensures WdsLine(m) != [] ==> WdsLine(m) == From(WdsLine(m)[0], m)
  {
    assert [] + NasLine(m) == NasLine(m);
  }

  lemma DmsLineFrom(m: Modem)
    ensures DmsLine(m) != [] && DmsLine(m) == From(DmsLine(m)[0], m)
  {
    assert [] + QueryLine(m) == QueryLine(m);
  }

  lemma BehindFrom(q: Request, m: Modem)
    ensures Behind(q, m) != [] ==> Behind(q, m) == From(Behind(q, m)[0], m)
  {
    WdsLineFrom(m);
    DmsLineFrom(m);
  }

  lemma BehindFits(p: Progress, q: Request, r: Reply)
    requires Fit(p, q) && (r.ok || Query(q))
    ensures var line, s := Behind(q, p.modem), Carried(p, q, r);
            if line == [] then s.ready && s.modem.created && s.modem.open else Fit(s, line[0])
  {
  }

  lemma AnswerCarries(p: Progress, q: Request, callback: bool, r: Reply)
    requires Fit(p, q) && (r.ok || Query(q))
    ensures Answered(Asking(p, q), callback, r) == Onwards(Carried(p, q, r), Behind(q, p.modem), callback)
  {
    assert p.log + [Ask(q)] + [Answer(q, r.ok)] == p.log + Exchange(q, r);
  }

  lemma AnswerEnds(p: Progress, q: Request, callback: bool, r: Reply)
    requires Fit(p, q) && !r.ok && !Query(q)
    ensures var end := Answered(Asking(p, q), callback, r);
            && end.holder.None? && end.modem == p.modem
            && end.log == p.log + (Exchange(q, r) + Farewell(p.modem, p.mode == Online, callback))
  {
    assert p.log + [Ask(q)] + [Answer(q, r.ok)] == p.log + Exchange(q, r);
  }

  lemma ScannedSpeaks(p: Progress, callback: bool, a: seq<Reply>)
    requires p.ready && p.modem.created && p.modem.open
    ensures Speaks(Run(Scanned(p, callback), callback, a), p.log, Spoken([], p.modem, p.mode == Online, callback, a))
  {
  }

  lemma {:induction false} AskingSpeaks(p: Progress, q: Request, callback: bool, a: seq<Reply>)
    requires Fit(p, q)
    ensures Speaks(Run(Asking(p, q), callback, a), p.log,
                   Spoken(From(q, p.modem), p.modem, p.mode == Online, callback, a))
    decreases |a|, 1
  {
    FromBehind(q, p.modem);
    if a == [] {
    } else if a[0].ok || Query(q) {
      var s := Carried(p, q, a[0]);
      AnswerCarries(p, q, callback, a[0]);
      CarriedSpeaks(p, q, callback, a);
      SpeaksSince(Run(Asking(p, q), callback, a), p.log, Exchange(q, a[0]),
                  Spoken(Behind(q, p.modem), s.modem, s.mode == Online, callback, a[1..]));
    } else {
      AnswerEnds(p, q, callback, a[0]);
    }
  }

  lemma {:induction false} CarriedSpeaks(p: Progress, q: Request, callback: bool, a: seq<Reply>)
    requires Fit(p, q) && a != [] && (a[0].ok || Query(q))
    ensures var line, s := Behind(q, p.modem), Carried(p, q, a[0]);
            Speaks(Run(Onwards(s, line, callback), callback, a[1..]), s.log,
                   Spoken(line, s.modem, s.mode == Online, callback, a[1..]))
    decreases |a|, 0
  {
    var line, s := Behind(q, p.modem), Carried(p, q, a[0]);
    BehindFits(p, q, a[0]);
    if line == [] {
      ScannedSpeaks(s, callback, a[1..]);
    } else {
      GainedBehind(q, p.modem);
      BehindFrom(q, s.modem);
      AskingSpeaks(s, line[0], callback, a[1..]);
    }
  }

  /** Every run of opening the modem, under all answers, is this conversation. */
  lemma OpenConverses(m: Modem, callback: bool, ready: bool, mode: Mode, a: seq<Reply>)
    ensures var end, talk := Run(Begin(m, [], ready, mode), callback, a), Spoken(Line(m), m, mode == Online, callback, a);
            end.log == talk.said && end.modem == talk.modem && (end.holder.None? <==> talk.over)
  {
    var p := Progress(m, ready || (m.created && m.open), mode, None, []);
    var q := Line(m)[0];
    assert Line(m) == From(q, m);
    AskingSpeaks(p, q, callback, a);
  }
}
