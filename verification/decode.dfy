/**
 A reader for the lines `Display` writes, the inverse of `Render`: a
 notification is recovered from its line, which shows that rendering keeps
 every field, except where a name or the status text itself contains the
 separator that follows it (`PortRenameAmbiguous` shows such a clash).
 */
module Decode {
  import opened Wrappers
  import opened Text
  import opened Jack
  import opened Notifications

  /** Reads a `u32` written in decimal at the start of `s`. */
  function ReadU32(s: string): Option<(U32, string)> {
    var (v, rest) :- ReadNat(s);
    if v < 0x1_0000_0000 then Some((v as U32, rest)) else None
  }

  lemma ReadU32Decimal(n: U32, rest: string)
    requires |rest| == 0 || !IsDigit(rest[0])
    ensures ReadU32(Decimal(n) + rest) == Some((n, rest))
  {
    ReadNatDecimal(n, rest);
  }

  /** Reads one line written by `Render`; `readStatus` reads the status text
      that `showStatus` writes for a shutdown. */
  function Parse(text: string, readStatus: string -> Option<ClientStatus>): Option<Notification> {
    var body :- StripPrefix(text, Banner);
    var line :- StripSuffix(body, "\n");
    ParseBody(line, readStatus)
  }

  /** Reads a body; its first word tells the kind of notification apart. */
  function ParseBody(line: string, readStatus: string -> Option<ClientStatus>): Option<Notification> {
    var (word, rest) :- SplitFirst(line, " ");
    ParseWords(word, rest, readStatus)
  }

  function ParseWords(word: string, rest: string, readStatus: string -> Option<ClientStatus>): Option<Notification> {
    if word == "thread" then
      if rest == "init" then Some(ThreadInit) else None
    else if word == "shutdown" then ParseShutdown(rest, readStatus)
    else if word == "freewheel" then
      if rest == "mode is on\n" then Some(Freewheel(true))
      else if rest == "mode is off\n" then Some(Freewheel(false))
      else None
    else if word == "sample" then ParseSampleRate(rest)
    else if word == "registered" then ParseRegistration(rest, true)
    else if word == "unregistered" then ParseRegistration(rest, false)
    else if word == "port" then ParsePortRename(rest)
    else if word == "ports" then ParsePortsConnected(rest)
    else if word == "graph" then
      if rest == "reordered" then Some(GraphReorder) else None
    else if word == "xrun" then
      if rest == "occurred" then Some(XRun) else None
    else None
  }

  function ParseShutdown(rest: string, readStatus: string -> Option<ClientStatus>): Option<Notification> {
    var tail :- StripPrefix(rest, "with status ");
    var (shown, reason) :- SplitFirst(tail, " because ");
    var status :- readStatus(shown);
    Some(Shutdown(status, reason))
  }

  function ParseSampleRate(rest: string): Option<Notification> {
    var tail :- StripPrefix(rest, "rate changed to ");
    var (srate, after) :- ReadU32(tail);
    if after == "" then Some(SampleRate(srate)) else None
  }

  function ParseRegistration(rest: string, isReg: bool): Option<Notification> {
    match StripPrefix(rest, "client with name \"")
    case Some(quoted) =>
      var name :- StripSuffix(quoted, "\"");
      Some(ClientRegistration(name, isReg))
    case None =>
      var tail :- StripPrefix(rest, "port with id ");
      var (portId, after) :- ReadU32(tail);
      if after == "\n" then Some(PortRegistration(portId, isReg)) else None
  }

  function ParsePortRename(rest: string): Option<Notification> {
    var tail :- StripPrefix(rest, "with id ");
    var (portId, after) :- ReadU32(tail);
    var names :- StripPrefix(after, " renamed from ");
    var (oldName, more) :- SplitFirst(names, " to ");
    var newName :- StripSuffix(more, "\n");
    Some(PortRename(portId, oldName, newName))
  }

  function ParsePortsConnected(rest: string): Option<Notification> {
    var tail :- StripPrefix(rest, "with id ");
    var (portIdA, after) :- ReadU32(tail);
    var second :- StripPrefix(after, " and ");
    var (portIdB, state) :- ReadU32(second);
    if state == " are connected\n" then Some(PortsConnected(portIdA, portIdB, true))
    else if state == " are disconnected\n" then Some(PortsConnected(portIdA, portIdB, false))
    else None
  }

  /** The notifications whose line can be read back: the status text of a
      shutdown and the old name of a renamed port must not contain the
      separator written after them. */
  predicate Unambiguous(n: Notification, showStatus: ClientStatus -> string) {
    match n
    case Shutdown(status, _) => SeparatorFree(showStatus(status), " because ")
    case PortRename(_, oldName, _) => SeparatorFree(oldName, " to ")
    case _ => true
  }

  /** `readStatus` reads back what `showStatus` writes for this notification's status. */
  predicate ReadsStatus(n: Notification, showStatus: ClientStatus -> string,
                        readStatus: string -> Option<ClientStatus>) {
    n.Shutdown? ==> readStatus(showStatus(n.status)) == Some(n.status)
  }

  predicate SpaceFree(word: string) {
    forall i :: 0 <= i < |word| ==> word[i] != ' '
  }

  /** A first word without spaces is split off exactly. */
  lemma SplitWord(word: string, rest: string)
    requires SpaceFree(word)
    ensures SplitFirst(word + " " + rest, " ") == Some((word, rest))
  {
    forall j: nat | j < |word|
      ensures !OccursAt(word + " ", " ", j)
    {
      assert (word + " ")[j..j + 1] == [word[j]];
    }
    SplitFirstConcat(word, " ", rest);
  }

  lemma ReadBackThreadInit(showStatus: ClientStatus -> string, readStatus: string -> Option<ClientStatus>)
    ensures ParseBody(Body(ThreadInit, showStatus), readStatus) == Some(ThreadInit)
  {
    assert Body(ThreadInit, showStatus) == "thread" + " " + "init";
    SplitWord("thread", "init");
  }

  lemma ReadBackShutdown(status: ClientStatus, reason: string, showStatus: ClientStatus -> string,
                      readStatus: string -> Option<ClientStatus>)
    requires SeparatorFree(showStatus(status), " because ")
    requires readStatus(showStatus(status)) == Some(status)
    ensures ParseBody(Body(Shutdown(status, reason), showStatus), readStatus) == Some(Shutdown(status, reason))
  {
    var shown := showStatus(status);
    var tail := shown + " because " + reason;
    var rest := "with status " + tail;
    assert Body(Shutdown(status, reason), showStatus) == "shutdown" + " " + rest;
    SplitWord("shutdown", rest);
    StripPrefixConcat("with status ", tail);
    SplitFirstConcat(shown, " because ", reason);
  }

  lemma ReadBackFreewheel(enabled: bool, showStatus: ClientStatus -> string,
                          readStatus: string -> Option<ClientStatus>)
    ensures ParseBody(Body(Freewheel(enabled), showStatus), readStatus) == Some(Freewheel(enabled))
  {
    var rest := "mode is " + OnOff(enabled) + "\n";
    assert Body(Freewheel(enabled), showStatus) == "freewheel" + " " + rest;
    SplitWord("freewheel", rest);
    if enabled {
      assert rest == "mode is on\n";
    } else {
      assert rest == "mode is off\n";
    }
  }

  lemma ReadBackSampleRate(srate: Frames, showStatus: ClientStatus -> string,
                           readStatus: string -> Option<ClientStatus>)
    ensures ParseBody(Body(SampleRate(srate), showStatus), readStatus) == Some(SampleRate(srate))
  {
    var rest := "rate changed to " + Decimal(srate);
    assert Body(SampleRate(srate), showStatus) == "sample" + " " + rest;
    SplitWord("sample", rest);
    StripPrefixConcat("rate changed to ", Decimal(srate));
    assert Decimal(srate) + "" == Decimal(srate);
    ReadU32Decimal(srate, "");
  }

  lemma RegroupPortRegistration(word: string, digits: string)
    ensures word + " port with id " + digits + "\n" == word + " " + ("port with id " + (digits + "\n"))
  {
  }

  lemma RegroupPortRename(digits: string, oldName: string, newName: string)
    ensures "port with id " + digits + " renamed from " + oldName + " to " + newName + "\n"
            == "port" + " " + ("with id " + (digits + (" renamed from " + (oldName + " to " + (newName + "\n")))))
  {
  }

  lemma RegroupPortsConnected(digitsA: string, digitsB: string, word: string)
    ensures "ports with id " + digitsA + " and " + digitsB + " are " + word + "\n"
            == "ports" + " " + ("with id " + (digitsA + (" and " + (digitsB + (" are " + word + "\n")))))
  {
  }

  /** Reading a body starts by splitting off its first word. */
  lemma ParseBodyWords(word: string, rest: string, readStatus: string -> Option<ClientStatus>)
    requires SpaceFree(word)
    ensures ParseBody(word + " " + rest, readStatus) == ParseWords(word, rest, readStatus)
  {
    SplitWord(word, rest);
  }

  lemma RegistrationWord(isReg: bool, rest: string, readStatus: string -> Option<ClientStatus>)
    ensures SpaceFree(Registered(isReg))
    ensures ParseWords(Registered(isReg), rest, readStatus) == ParseRegistration(rest, isReg)
  {
  }

  lemma ReadClientRegistration(name: string, isReg: bool)
    ensures ParseRegistration("client with name \"" + (name + "\""), isReg) == Some(ClientRegistration(name, isReg))
  {
    StripPrefixConcat("client with name \"", name + "\"");
    StripSuffixConcat(name, "\"");
  }

  lemma ReadBackClientRegistration(name: string, isReg: bool, showStatus: ClientStatus -> string,
                                   readStatus: string -> Option<ClientStatus>)
    ensures ParseBody(Body(ClientRegistration(name, isReg), showStatus), readStatus)
            == Some(ClientRegistration(name, isReg))
  {
    var rest := "client with name \"" + (name + "\"");
    assert Body(ClientRegistration(name, isReg), showStatus) == Registered(isReg) + " " + rest;
    RegistrationWord(isReg, rest, readStatus);
    ParseBodyWords(Registered(isReg), rest, readStatus);
    ReadClientRegistration(name, isReg);
  }

  lemma ReadBackPortRegistration(portId: PortId, isReg: bool, showStatus: ClientStatus -> string,
                                 readStatus: string -> Option<ClientStatus>)
    ensures ParseBody(Body(PortRegistration(portId, isReg), showStatus), readStatus)
            == Some(PortRegistration(portId, isReg))
  {
    var rest := "port with id " + (Decimal(portId) + "\n");
    RegroupPortRegistration(Registered(isReg), Decimal(portId));
    assert Body(PortRegistration(portId, isReg), showStatus) == Registered(isReg) + " " + rest;
    RegistrationWord(isReg, rest, readStatus);
    ParseBodyWords(Registered(isReg), rest, readStatus);
    ReadPortRegistration(portId, isReg);
  }

  lemma ReadPortRegistration(portId: PortId, isReg: bool)
    ensures ParseRegistration("port with id " + (Decimal(portId) + "\n"), isReg) == Some(PortRegistration(portId, isReg))
  {
    var tail := Decimal(portId) + "\n";
    var rest := "port with id " + tail;
    assert rest[0] == 'p';
    StripPrefixConcat("port with id ", tail);
    ReadU32Decimal(portId, "\n");
  }

  lemma ReadBackPortRename(portId: PortId, oldName: string, newName: string,
                           showStatus: ClientStatus -> string, readStatus: string -> Option<ClientStatus>)
    requires SeparatorFree(oldName, " to ")
    ensures ParseBody(Body(PortRename(portId, oldName, newName), showStatus), readStatus)
            == Some(PortRename(portId, oldName, newName))
  {
    var names := oldName + " to " + (newName + "\n");
    var after := " renamed from " + names;
    var rest := "with id " + (Decimal(portId) + after);
    RegroupPortRename(Decimal(portId), oldName, newName);
    assert Body(PortRename(portId, oldName, newName), showStatus) == "port" + " " + rest;
    SplitWord("port", rest);
    ReadPortRename(portId, oldName, newName);
  }

  lemma ReadPortRename(portId: PortId, oldName: string, newName: string)
    requires SeparatorFree(oldName, " to ")
    ensures ParsePortRename("with id " + (Decimal(portId) + (" renamed from " + (oldName + " to " + (newName + "\n")))))
            == Some(PortRename(portId, oldName, newName))
  {
    var names := oldName + " to " + (newName + "\n");
    var after := " renamed from " + names;
    StripPrefixConcat("with id ", Decimal(portId) + after);
    ReadU32Decimal(portId, after);
    StripPrefixConcat(" renamed from ", names);
    SplitFirstConcat(oldName, " to ", newName + "\n");
    StripSuffixConcat(newName, "\n");
  }

  lemma ReadBackPortsConnected(portIdA: PortId, portIdB: PortId, areConnected: bool,
                               showStatus: ClientStatus -> string, readStatus: string -> Option<ClientStatus>)
    ensures ParseBody(Body(PortsConnected(portIdA, portIdB, areConnected), showStatus), readStatus)
            == Some(PortsConnected(portIdA, portIdB, areConnected))
  {
    var state := " are " + Connected(areConnected) + "\n";
    var rest := "with id " + (Decimal(portIdA) + (" and " + (Decimal(portIdB) + state)));
    RegroupPortsConnected(Decimal(portIdA), Decimal(portIdB), Connected(areConnected));
    assert Body(PortsConnected(portIdA, portIdB, areConnected), showStatus) == "ports" + " " + rest;
    ParseBodyWords("ports", rest, readStatus);
    ReadPortsConnected(portIdA, portIdB, areConnected);
  }

  lemma ReadPortsConnected(portIdA: PortId, portIdB: PortId, areConnected: bool)
    ensures ParsePortsConnected("with id " + (Decimal(portIdA) + (" and " + (Decimal(portIdB) + (" are " + Connected(areConnected) + "\n")))))
            == Some(PortsConnected(portIdA, portIdB, areConnected))
  {
    var state := " are " + Connected(areConnected) + "\n";
    var second := Decimal(portIdB) + state;
    var after := " and " + second;
    StripPrefixConcat("with id ", Decimal(portIdA) + after);
    ReadU32Decimal(portIdA, after);
    StripPrefixConcat(" and ", second);
    ReadU32Decimal(portIdB, state);
    ReadConnectionState(areConnected);
  }

  lemma ReadConnectionState(areConnected: bool)
    ensures (" are " + Connected(areConnected) + "\n" == " are connected\n") == areConnected
    ensures (" are " + Connected(areConnected) + "\n" == " are disconnected\n") == !areConnected
  {
  }

  lemma ReadBackGraphReorder(showStatus: ClientStatus -> string, readStatus: string -> Option<ClientStatus>)
    ensures ParseBody(Body(GraphReorder, showStatus), readStatus) == Some(GraphReorder)
  {
    assert Body(GraphReorder, showStatus) == "graph" + " " + "reordered";
    SplitWord("graph", "reordered");
  }

  lemma ReadBackXRun(showStatus: ClientStatus -> string, readStatus: string -> Option<ClientStatus>)
    ensures ParseBody(Body(XRun, showStatus), readStatus) == Some(XRun)
  {
    assert Body(XRun, showStatus) == "xrun" + " " + "occurred";
    SplitWord("xrun", "occurred");
  }

  /** Reading a rendered line gives back the notification, field for field. */
  lemma RenderRoundTrip(n: Notification, showStatus: ClientStatus -> string,
                        readStatus: string -> Option<ClientStatus>)
    requires Unambiguous(n, showStatus)
    requires ReadsStatus(n, showStatus, readStatus)
    ensures Parse(Render(n, showStatus), readStatus) == Some(n)
  {
    var body := Body(n, showStatus);
    assert Render(n, showStatus) == Banner + (body + "\n");
    StripPrefixConcat(Banner, body + "\n");
    StripSuffixConcat(body, "\n");
    match n
    case ThreadInit => ReadBackThreadInit(showStatus, readStatus);
    case Shutdown(status, reason) => ReadBackShutdown(status, reason, showStatus, readStatus);
    case Freewheel(enabled) => ReadBackFreewheel(enabled, showStatus, readStatus);
    case SampleRate(srate) => ReadBackSampleRate(srate, showStatus, readStatus);
    case ClientRegistration(name, isReg) =>
      ReadBackClientRegistration(name, isReg, showStatus, readStatus);
    case PortRegistration(portId, isReg) =>
      ReadBackPortRegistration(portId, isReg, showStatus, readStatus);
    case PortRename(portId, oldName, newName) =>
      ReadBackPortRename(portId, oldName, newName, showStatus, readStatus);
    case PortsConnected(portIdA, portIdB, areConnected) =>
      ReadBackPortsConnected(portIdA, portIdB, areConnected, showStatus, readStatus);
    case GraphReorder => ReadBackGraphReorder(showStatus, readStatus);
    case XRun => ReadBackXRun(showStatus, readStatus);
  }

  /** Two notifications that can be read back and render alike are equal. */
  lemma RenderInjective(m: Notification, n: Notification, showStatus: ClientStatus -> string,
                        readStatus: string -> Option<ClientStatus>)
    requires Unambiguous(m, showStatus) && ReadsStatus(m, showStatus, readStatus)
    requires Unambiguous(n, showStatus) && ReadsStatus(n, showStatus, readStatus)
    requires Render(m, showStatus) == Render(n, showStatus)
    ensures m == n
  {
    RenderRoundTrip(m, showStatus, readStatus);
    RenderRoundTrip(n, showStatus, readStatus);
  }

  /** Without the separator condition the line is ambiguous: an old name
      that ends in " to" renders like a new name that starts with "to ". */
  lemma PortRenameAmbiguous(showStatus: ClientStatus -> string)
    ensures Render(PortRename(1, "a to", "b"), showStatus) == Render(PortRename(1, "a", "to b"), showStatus)
    ensures PortRename(1, "a to", "b") != PortRename(1, "a", "to b")
  {
    assert "a to" + " to " + "b" == "a" + " to " + "to b";
  }
}
