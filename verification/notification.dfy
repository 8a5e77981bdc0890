/**
 The event model: the ten notifications a jack client can receive, and the
 one-line text `Display` writes for each (src/lib.rs).
 */
module Notifications {
  import opened Text
  import opened Jack

  /** One notification; exactly one variant is active and the set is closed.
      How the `Debug` form of a `ClientStatus` spells its flags is jack's own,
      so rendering takes that spelling as a parameter (`showStatus`). */
  datatype Notification =
    | ThreadInit
    | Shutdown(status: ClientStatus, reason: string)
    | Freewheel(enabled: bool)
    | SampleRate(srate: Frames)
    | ClientRegistration(name: string, isReg: bool)
    | PortRegistration(portId: PortId, isReg: bool)
    | PortRename(portId: PortId, oldName: string, newName: string)
    | PortsConnected(portIdA: PortId, portIdB: PortId, areConnected: bool)
    | GraphReorder
    | XRun

  const Banner: string := "JACK: "

  function OnOff(enabled: bool): string {
    if enabled then "on" else "off"
  }

  function Registered(isReg: bool): string {
    if isReg then "registered" else "unregistered"
  }

  function Connected(areConnected: bool): string {
    if areConnected then "connected" else "disconnected"
  }

  /** The variants whose format string ends in an explicit `\n` of its own,
      on top of the one `writeln!` adds. */
  predicate DoubleSpaced(n: Notification) {
    n.Freewheel? || n.PortRegistration? || n.PortRename? || n.PortsConnected?
  }

  predicate EndsWithBlankLine(text: string) {
    EndsWith(text, "\n\n")
  }

  /** What each arm of `Display::fmt` writes between the banner and the
      newline `writeln!` appends. */
  function Body(n: Notification, showStatus: ClientStatus -> string): string {
    match n
    case ThreadInit => "thread init"
    case Shutdown(status, reason) =>
      "shutdown with status " + showStatus(status) + " because " + reason
    case Freewheel(enabled) => "freewheel mode is " + OnOff(enabled) + "\n"
    case SampleRate(srate) => "sample rate changed to " + Decimal(srate)
    case ClientRegistration(name, isReg) =>
      Registered(isReg) + " client with name \"" + name + "\""
    case PortRegistration(portId, isReg) =>
      Registered(isReg) + " port with id " + Decimal(portId) + "\n"
    case PortRename(portId, oldName, newName) =>
      "port with id " + Decimal(portId) + " renamed from " + oldName + " to " + newName + "\n"
    case PortsConnected(portIdA, portIdB, areConnected) =>
      "ports with id " + Decimal(portIdA) + " and " + Decimal(portIdB) + " are "
      + Connected(areConnected) + "\n"
    case GraphReorder => "graph reordered"
    case XRun => "xrun occurred"
  }

  /** The text `writeln!` produces for `n` in `Display::fmt`: one line that
      starts with the banner and ends with a newline. */
  function Render(n: Notification, showStatus: ClientStatus -> string): (text: string)
    ensures Banner <= text
    ensures EndsWith(text, "\n") && |text| > |Banner|
  {
    Banner + Body(n, showStatus) + "\n"
  }

  /** Which renderings end in a blank line: the four variants whose format
      string carries its own `\n`, and a shutdown whose reason already ends
      in a newline. Every other rendering ends in exactly one newline. */
  lemma RenderSpacing(n: Notification, showStatus: ClientStatus -> string)
    ensures EndsWithBlankLine(Render(n, showStatus)) <==>
              DoubleSpaced(n) || (n.Shutdown? && EndsWith(n.reason, "\n"))
  {
    var body := Body(n, showStatus);
    var text := Render(n, showStatus);
    assert EndsWithBlankLine(text) <==> EndsWith(body, "\n") by {
      assert |text| == |Banner| + |body| + 1;
      assert text[|text| - 1] == '\n';
      assert text[|text| - 2] == body[|body| - 1];
    }
    match n
    case Shutdown(status, reason) =>
      assert EndsWith(body, "\n") <==> EndsWith(reason, "\n") by {
        assert |reason| > 0 ==> body[|body| - 1] == reason[|reason| - 1];
        assert |reason| == 0 ==> body[|body| - 1] == ' ';
      }
    case ClientRegistration(name, isReg) =>
      assert body[|body| - 1] == '"';
    case SampleRate(srate) =>
      assert IsDigit(body[|body| - 1]);
    case _ =>
  }

  /** `Freewheel` says "on" exactly when freewheel mode was enabled. */
  lemma FreewheelWords(enabled: bool, showStatus: ClientStatus -> string)
    ensures Render(Freewheel(enabled), showStatus) == "JACK: freewheel mode is on\n\n" <==> enabled
    ensures Render(Freewheel(enabled), showStatus) == "JACK: freewheel mode is off\n\n" <==> !enabled
  {
    var text := Render(Freewheel(enabled), showStatus);
    assert |text| == if enabled then 28 else 29;
    if enabled {
      assert text == "JACK: freewheel mode is on\n\n";
    } else {
      assert text == "JACK: freewheel mode is off\n\n";
    }
  }

  /** The registration word decides which of the two banners a line starts with. */
  lemma RegisteredBanner(isReg: bool, rest: string)
    requires " " <= rest
    ensures "JACK: registered " <= Banner + Registered(isReg) + rest <==> isReg
    ensures "JACK: unregistered " <= Banner + Registered(isReg) + rest <==> !isReg
  {
    var front := Banner + Registered(isReg) + " ";
    var text := Banner + Registered(isReg) + rest;
    assert text == front + rest[1..];
    PrefixExtends(front, front, rest[1..]);
    assert text[6] == front[6] == if isReg then 'r' else 'u';
  }

  /** A client registration says "registered" exactly when the flag is set
      and "unregistered" exactly when it is clear. */
  lemma ClientRegistrationWords(name: string, isReg: bool, showStatus: ClientStatus -> string)
    ensures "JACK: registered " <= Render(ClientRegistration(name, isReg), showStatus) <==> isReg
    ensures "JACK: unregistered " <= Render(ClientRegistration(name, isReg), showStatus) <==> !isReg
  {
    var rest := " client with name \"" + name + "\"\n";
    assert Render(ClientRegistration(name, isReg), showStatus) == Banner + Registered(isReg) + rest;
    RegisteredBanner(isReg, rest);
  }

  /** The same words for a port registration. */
  lemma PortRegistrationWords(portId: PortId, isReg: bool, showStatus: ClientStatus -> string)
    ensures "JACK: registered " <= Render(PortRegistration(portId, isReg), showStatus) <==> isReg
    ensures "JACK: unregistered " <= Render(PortRegistration(portId, isReg), showStatus) <==> !isReg
  {
    var rest := " port with id " + Decimal(portId) + "\n\n";
    assert Render(PortRegistration(portId, isReg), showStatus) == Banner + Registered(isReg) + rest;
    RegisteredBanner(isReg, rest);
  }

  /** The connection word decides which of the two endings a line has. */
  lemma ConnectedEnding(front: string, areConnected: bool)
    ensures EndsWith(front + " are " + Connected(areConnected) + "\n\n", " are connected\n\n") <==> areConnected
    ensures EndsWith(front + " are " + Connected(areConnected) + "\n\n", " are disconnected\n\n") <==> !areConnected
  {
    var text := front + " are " + Connected(areConnected) + "\n\n";
    if areConnected {
      var tail := " are connected\n\n";
      assert text == front + tail;
      SuffixExtends(tail, front, tail);
      assert text[|text| - 16] == ' ';
      assert !EndsWith(text, " are disconnected\n\n") by {
        assert " are disconnected\n\n"[3] == 'e';
      }
    } else {
      var tail := " are disconnected\n\n";
      assert text == front + tail;
      SuffixExtends(tail, front, tail);
      assert text[|text| - 16] == 'e';
    }
  }

  lemma RegroupConnection(a: string, b: string, w: string)
    ensures Banner + ("ports with id " + a + " and " + b + " are " + w + "\n") + "\n"
            == (Banner + "ports with id " + a + " and " + b) + " are " + w + "\n\n"
  {
  }

  /** A connection change says "connected" exactly when the ports were
      connected and "disconnected" exactly when they were disconnected. */
  lemma ConnectionWords(portIdA: PortId, portIdB: PortId, areConnected: bool, showStatus: ClientStatus -> string)
    ensures EndsWith(Render(PortsConnected(portIdA, portIdB, areConnected), showStatus), " are connected\n\n")
            <==> areConnected
    ensures EndsWith(Render(PortsConnected(portIdA, portIdB, areConnected), showStatus), " are disconnected\n\n")
            <==> !areConnected
  {
    var a, b, w := Decimal(portIdA), Decimal(portIdB), Connected(areConnected);
    var front := Banner + "ports with id " + a + " and " + b;
    assert Render(PortsConnected(portIdA, portIdB, areConnected), showStatus)
        == Banner + ("ports with id " + a + " and " + b + " are " + w + "\n") + "\n";
    RegroupConnection(a, b, w);
    ConnectedEnding(front, areConnected);
  }

  /** The phrase that names the kind of event in its rendering. */
  function Keyword(n: Notification): string {
    match n
    case ThreadInit => "thread init"
    case Shutdown(_, _) => "shutdown"
    case Freewheel(_) => "freewheel"
    case SampleRate(_) => "sample rate"
    case ClientRegistration(_, _) => "client"
    case PortRegistration(_, _) => "port"
    case PortRename(_, _, _) => "renamed"
    case PortsConnected(_, _, _) => "ports"
    case GraphReorder => "graph reordered"
    case XRun => "xrun"
  }

  lemma ShutdownMentions(status: ClientStatus, reason: string, showStatus: ClientStatus -> string)
    ensures Contains(Body(Shutdown(status, reason), showStatus), "shutdown")
    ensures Contains(Body(Shutdown(status, reason), showStatus), showStatus(status))
    ensures Contains(Body(Shutdown(status, reason), showStatus), reason)
  {
    var body := Body(Shutdown(status, reason), showStatus);
    var front := "shutdown with status " + showStatus(status);
    ContainsPrefix("shutdown", "shutdown with status ");
    ContainsAppend("shutdown with status ", showStatus(status), "shutdown");
    ContainsAppend(front, " because ", "shutdown");
    ContainsAppend(front + " because ", reason, "shutdown");
    ContainsSelf(showStatus(status));
    ContainsPrepend("shutdown with status ", showStatus(status), showStatus(status));
    ContainsAppend(front, " because ", showStatus(status));
    ContainsAppend(front + " because ", reason, showStatus(status));
    ContainsSelf(reason);
    ContainsPrepend(front + " because ", reason, reason);
  }

  lemma ClientRegistrationMentions(name: string, isReg: bool, showStatus: ClientStatus -> string)
    ensures Contains(Body(ClientRegistration(name, isReg), showStatus), "client")
    ensures Contains(Body(ClientRegistration(name, isReg), showStatus), name)
  {
    var body := Body(ClientRegistration(name, isReg), showStatus);
    var front := Registered(isReg) + " client with name \"";
    assert OccursAt(" client with name \"", "client", 1);
    ContainsPrepend(Registered(isReg), " client with name \"", "client");
    ContainsAppend(front, name, "client");
    ContainsAppend(front + name, "\"", "client");
    ContainsSelf(name);
    ContainsPrepend(front, name, name);
    ContainsAppend(front + name, "\"", name);
  }

  lemma PortRegistrationMentions(portId: PortId, isReg: bool, showStatus: ClientStatus -> string)
    ensures Contains(Body(PortRegistration(portId, isReg), showStatus), "port")
    ensures Contains(Body(PortRegistration(portId, isReg), showStatus), Decimal(portId))
  {
    var body := Body(PortRegistration(portId, isReg), showStatus);
    var front := Registered(isReg) + " port with id ";
    var d := Decimal(portId);
    assert OccursAt(" port with id ", "port", 1);
    ContainsPrepend(Registered(isReg), " port with id ", "port");
    ContainsAppend(front, d, "port");
    ContainsAppend(front + d, "\n", "port");
    ContainsSelf(d);
    ContainsPrepend(front, d, d);
    ContainsAppend(front + d, "\n", d);
  }

  lemma PortRenameMentions(portId: PortId, oldName: string, newName: string, showStatus: ClientStatus -> string)
    ensures Contains(Body(PortRename(portId, oldName, newName), showStatus), "renamed")
    ensures Contains(Body(PortRename(portId, oldName, newName), showStatus), Decimal(portId))
    ensures Contains(Body(PortRename(portId, oldName, newName), showStatus), oldName)
    ensures Contains(Body(PortRename(portId, oldName, newName), showStatus), newName)
  {
    var body := Body(PortRename(portId, oldName, newName), showStatus);
    var d := Decimal(portId);
    var f1 := "port with id " + d;
    var f2 := f1 + " renamed from ";
    var f3 := f2 + oldName;
    var f4 := f3 + " to ";
    var f5 := f4 + newName;
    assert body == f5 + "\n";
    assert OccursAt(" renamed from ", "renamed", 1);
    ContainsPrepend(f1, " renamed from ", "renamed");
    ContainsAppend(f2, oldName, "renamed");
    ContainsAppend(f3, " to ", "renamed");
    ContainsAppend(f4, newName, "renamed");
    ContainsAppend(f5, "\n", "renamed");
    ContainsSelf(d);
    ContainsPrepend("port with id ", d, d);
    ContainsAppend(f1, " renamed from ", d);
    ContainsAppend(f2, oldName, d);
    ContainsAppend(f3, " to ", d);
    ContainsAppend(f4, newName, d);
    ContainsAppend(f5, "\n", d);
    ContainsSelf(oldName);
    ContainsPrepend(f2, oldName, oldName);
    ContainsAppend(f3, " to ", oldName);
    ContainsAppend(f4, newName, oldName);
    ContainsAppend(f5, "\n", oldName);
    ContainsSelf(newName);
    ContainsPrepend(f4, newName, newName);
    ContainsAppend(f5, "\n", newName);
  }

  lemma PortsConnectedMentions(portIdA: PortId, portIdB: PortId, areConnected: bool, showStatus: ClientStatus -> string)
    ensures Contains(Body(PortsConnected(portIdA, portIdB, areConnected), showStatus), "ports")
    ensures Contains(Body(PortsConnected(portIdA, portIdB, areConnected), showStatus), Decimal(portIdA))
    ensures Contains(Body(PortsConnected(portIdA, portIdB, areConnected), showStatus), Decimal(portIdB))
  {
    var body := Body(PortsConnected(portIdA, portIdB, areConnected), showStatus);
    var a, b := Decimal(portIdA), Decimal(portIdB);
    var f1 := "ports with id " + a;
    var f2 := f1 + " and ";
    var f3 := f2 + b;
    var f4 := f3 + " are ";
    var f5 := f4 + Connected(areConnected);
    assert body == f5 + "\n";
    ContainsPrefix("ports", body);
    ContainsSelf(a);
    ContainsPrepend("ports with id ", a, a);
    ContainsAppend(f1, " and ", a);
    ContainsAppend(f2, b, a);
    ContainsAppend(f3, " are ", a);
    ContainsAppend(f4, Connected(areConnected), a);
    ContainsAppend(f5, "\n", a);
    ContainsSelf(b);
    ContainsPrepend(f2, b, b);
    ContainsAppend(f3, " are ", b);
    ContainsAppend(f4, Connected(areConnected), b);
    ContainsAppend(f5, "\n", b);
  }

  /** The body of every rendering names its kind and carries the payload. */
  lemma BodyMentions(n: Notification, showStatus: ClientStatus -> string)
    ensures Contains(Body(n, showStatus), Keyword(n))
    ensures n.Shutdown? ==>
              Contains(Body(n, showStatus), showStatus(n.status))
              && Contains(Body(n, showStatus), n.reason)
    ensures n.SampleRate? ==> Contains(Body(n, showStatus), Decimal(n.srate))
    ensures n.ClientRegistration? ==> Contains(Body(n, showStatus), n.name)
    ensures n.PortRegistration? || n.PortRename? ==>
              Contains(Body(n, showStatus), Decimal(n.portId))
    ensures n.PortRename? ==>
              Contains(Body(n, showStatus), n.oldName)
              && Contains(Body(n, showStatus), n.newName)
    ensures n.PortsConnected? ==>
              Contains(Body(n, showStatus), Decimal(n.portIdA))
              && Contains(Body(n, showStatus), Decimal(n.portIdB))
  {
    var body := Body(n, showStatus);
    match n
    case ThreadInit =>
      ContainsSelf(body);
    case Shutdown(status, reason) =>
      ShutdownMentions(status, reason, showStatus);
    case Freewheel(enabled) =>
      ContainsPrefix("freewheel", body);
    case SampleRate(srate) =>
      ContainsPrefix("sample rate", body);
      ContainsSelf(Decimal(srate));
      ContainsPrepend("sample rate changed to ", Decimal(srate), Decimal(srate));
    case ClientRegistration(name, isReg) =>
      ClientRegistrationMentions(name, isReg, showStatus);
    case PortRegistration(portId, isReg) =>
      PortRegistrationMentions(portId, isReg, showStatus);
    case PortRename(portId, oldName, newName) =>
      PortRenameMentions(portId, oldName, newName, showStatus);
    case PortsConnected(portIdA, portIdB, areConnected) =>
      PortsConnectedMentions(portIdA, portIdB, areConnected, showStatus);
    case GraphReorder =>
      ContainsSelf(body);
    case XRun =>
      ContainsPrefix("xrun", body);
  }

  /** What a rendering contains, it contains because its body does. */
  lemma RenderContainsBody(n: Notification, showStatus: ClientStatus -> string, t: string)
    requires Contains(Body(n, showStatus), t)
    ensures Contains(Render(n, showStatus), t)
  {
    ContainsPrepend(Banner, Body(n, showStatus), t);
    ContainsAppend(Banner + Body(n, showStatus), "\n", t);
  }

  /** Every rendering names its kind and carries the literal payload values. */
  lemma RenderMentions(n: Notification, showStatus: ClientStatus -> string)
    ensures Contains(Render(n, showStatus), Keyword(n))
    ensures n.Shutdown? ==>
              Contains(Render(n, showStatus), showStatus(n.status))
              && Contains(Render(n, showStatus), n.reason)
    ensures n.SampleRate? ==> Contains(Render(n, showStatus), Decimal(n.srate))
    ensures n.ClientRegistration? ==> Contains(Render(n, showStatus), n.name)
    ensures n.PortRegistration? || n.PortRename? ==>
              Contains(Render(n, showStatus), Decimal(n.portId))
    ensures n.PortRename? ==>
              Contains(Render(n, showStatus), n.oldName)
              && Contains(Render(n, showStatus), n.newName)
    ensures n.PortsConnected? ==>
              Contains(Render(n, showStatus), Decimal(n.portIdA))
              && Contains(Render(n, showStatus), Decimal(n.portIdB))
  {
    BodyMentions(n, showStatus);
    RenderContainsBody(n, showStatus, Keyword(n));
    match n
    case Shutdown(status, reason) =>
      RenderContainsBody(n, showStatus, showStatus(status));
      RenderContainsBody(n, showStatus, reason);
    case SampleRate(srate) =>
      RenderContainsBody(n, showStatus, Decimal(srate));
    case ClientRegistration(name, _) =>
      RenderContainsBody(n, showStatus, name);
    case PortRegistration(portId, _) =>
      RenderContainsBody(n, showStatus, Decimal(portId));
    case PortRename(portId, oldName, newName) =>
      RenderContainsBody(n, showStatus, Decimal(portId));
      RenderContainsBody(n, showStatus, oldName);
      RenderContainsBody(n, showStatus, newName);
    case PortsConnected(portIdA, portIdB, _) =>
      RenderContainsBody(n, showStatus, Decimal(portIdA));
      RenderContainsBody(n, showStatus, Decimal(portIdB));
    case _ =>
  }

}
