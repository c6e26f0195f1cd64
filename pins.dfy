// DirectShow pin logic of the Elgato provider: the pin predicates, the first-fit search for an
// unconnected pin, and the three ConnectFilters variants.
//
// A pin is seen only through the answers of its two queries, IPin::ConnectedTo and
// IPin::QueryDirection; a filter only through IBaseFilter::EnumPins, whose enumerator yields the
// pins in order. The answer of IGraphBuilder::Connect is an oracle argument.

module Pins {
  import opened Com

  /** PIN_DIRECTION. */
  datatype Direction = Input | Output

  /** A pin as the enumerator yields it: the HRESULT IPin::ConnectedTo answers, the HRESULT
      IPin::QueryDirection answers, and the direction it reports when that call succeeds. */
  datatype Pin = Pin(connectedTo: HResult, directionQuery: HResult, direction: Direction)

  /** A filter as seen through IBaseFilter::EnumPins: that call's answer, then its pins in order. */
  datatype Filter = Filter(enumPins: HResult, pins: seq<Pin>)

  /** A call that answers an HRESULT and, when it succeeds, a BOOL through an out-parameter. */
  datatype Reply = Answer(hr: HResult, value: bool) | Error(hr: HResult)

  /** The result of FindUnconnectedPin: the pin handed back (by its place in enumeration
      order) with the success code, or the failure code and no pin. */
  datatype Search = Found(hr: HResult, index: nat) | Missing(hr: HResult)

  // ---------------------------------------------------------------------------------------
  // Classification of a pin for a search in direction `dir`, stated on its attributes alone.

  /** ConnectedTo reports a peer. */
  predicate IsConnected(p: Pin) { Succeeded(p.connectedTo) }

  /** ConnectedTo reports VFW_E_NOT_CONNECTED. */
  predicate IsUnconnected(p: Pin) { p.connectedTo == VFW_E_NOT_CONNECTED }

  /** A pin the search hands back: free and of the requested direction. */
  predicate Selectable(p: Pin, dir: Direction) {
    IsUnconnected(p) && Succeeded(p.directionQuery) && p.direction == dir
  }

  /** A pin the search steps over: already connected, or free but of the other direction. */
  predicate Passed(p: Pin, dir: Direction) {
    IsConnected(p) || (IsUnconnected(p) && Succeeded(p.directionQuery) && p.direction != dir)
  }

  /** The code a pin that is neither selectable nor passed makes the search fail with. */
  function FaultCode(p: Pin): HResult {
    if IsConnected(p) || IsUnconnected(p) then p.directionQuery else p.connectedTo
  }

  // ---------------------------------------------------------------------------------------
  // The three pin predicates of the source.

  /** IsPinConnected: a peer means connected; VFW_E_NOT_CONNECTED means "not connected" and is
      turned into S_OK; any other failure is passed on. */
  function IsPinConnected(p: Pin): (r: Reply)
    ensures r.Answer? <==> IsConnected(p) || IsUnconnected(p)
    ensures r.Answer? ==> Succeeded(r.hr) && (r.value <==> IsConnected(p))
    ensures r.Answer? && IsUnconnected(p) ==> r.hr == S_OK
    ensures r.Error? ==> r.hr == p.connectedTo && Failed(r.hr)
  {
    if Succeeded(p.connectedTo) then Answer(p.connectedTo, true)
    else if p.connectedTo == VFW_E_NOT_CONNECTED then Answer(S_OK, false)
    else Error(p.connectedTo)
  }

  /** IsPinDirection: compares the reported direction when QueryDirection succeeds. */
  function IsPinDirection(p: Pin, dir: Direction): (r: Reply)
    ensures r.Answer? <==> Succeeded(p.directionQuery)
    ensures r.Answer? ==> (r.value <==> p.direction == dir)
    ensures r.hr == p.directionQuery
  {
    if Succeeded(p.directionQuery) then Answer(p.directionQuery, p.direction == dir)
    else Error(p.directionQuery)
  }

  /** MatchPin: the direction is queried only when the connection state is the wanted one;
      a failing query ends the test with its code. */
  function MatchPin(p: Pin, dir: Direction, shouldBeConnected: bool): (r: Reply)
    ensures r.Answer? ==> Succeeded(r.hr)
    ensures r.Error? ==> Failed(r.hr)
    ensures IsPinConnected(p).Error? ==> r == Error(p.connectedTo)
    ensures IsPinConnected(p).Answer? && IsPinConnected(p).value != shouldBeConnected ==>
              r == Answer(IsPinConnected(p).hr, false)
    ensures IsPinConnected(p).Answer? && IsPinConnected(p).value == shouldBeConnected ==>
              && r.hr == p.directionQuery
              && (r.Answer? <==> Succeeded(p.directionQuery))
              && (r.Answer? ==> (r.value <==> p.direction == dir))
    ensures r.Answer? && r.value <==>
              IsPinConnected(p).Answer? && IsPinConnected(p).value == shouldBeConnected &&
              Succeeded(p.directionQuery) && p.direction == dir
  {
    match IsPinConnected(p)
    case Error(e) => Error(e)
    case Answer(hr, connected) =>
      if connected == shouldBeConnected then IsPinDirection(p, dir) else Answer(hr, false)
  }

  /** The search's test (MatchPin with bShouldBeConnected = FALSE) agrees with the
      classification: it says "match" exactly on selectable pins, "no match" exactly on passed
      pins, and fails with FaultCode on every other pin. */
  lemma MatchPinClassifies(p: Pin, dir: Direction)
    ensures (MatchPin(p, dir, false).Answer? && MatchPin(p, dir, false).value) <==> Selectable(p, dir)
    ensures (MatchPin(p, dir, false).Answer? && !MatchPin(p, dir, false).value) <==> Passed(p, dir)
    ensures MatchPin(p, dir, false).Error? <==> !Selectable(p, dir) && !Passed(p, dir)
    ensures MatchPin(p, dir, false).Error? ==> MatchPin(p, dir, false).hr == FaultCode(p)
  {
  }

  // ---------------------------------------------------------------------------------------
  // FindUnconnectedPin.

  /** The search over pins[i..]: the first pin that matches is handed back, a failing MatchPin
      ends the search with its code, and running out of pins gives VFW_E_NOT_FOUND. */
  function FindFrom(pins: seq<Pin>, dir: Direction, i: nat): (r: Search)
    requires i <= |pins|
    decreases |pins| - i
  {
    if i == |pins| then Missing(VFW_E_NOT_FOUND)
    else
      match MatchPin(pins[i], dir, false)
      case Error(e) => Missing(e)
      case Answer(hr, found) =>
        if found then Found(hr, i) else FindFrom(pins, dir, i + 1)
  }

  /** The search hands back, with a success code, a selectable pin all of whose predecessors
      were passed, and fails with a failure code otherwise. */
  lemma {:induction false} FindFromSound(pins: seq<Pin>, dir: Direction, i: nat)
    requires i <= |pins|
    decreases |pins| - i
    ensures var r := FindFrom(pins, dir, i);
      && (r.Found? ==> Succeeded(r.hr) && i <= r.index < |pins| && Selectable(pins[r.index], dir))
      && (r.Found? ==> forall j :: i <= j < r.index ==> Passed(pins[j], dir))
      && (r.Missing? ==> Failed(r.hr))
  {
    if i < |pins| {
      MatchPinClassifies(pins[i], dir);
      FindFromSound(pins, dir, i + 1);
    }
  }

  /** What FindUnconnectedPin answers for filter `f`: EnumPins' failure, or the search. */
  function FindPin(f: Filter, dir: Direction): (r: Search)
  {
    if Failed(f.enumPins) then Missing(f.enumPins) else FindFrom(f.pins, dir, 0)
  }

  /** A failing EnumPins is passed on; otherwise the search's guarantees hold for the filter's
      pins. In particular the search succeeds exactly when it hands back a pin. */
  lemma FindPinSound(f: Filter, dir: Direction)
    ensures Failed(f.enumPins) ==> FindPin(f, dir) == Missing(f.enumPins)
    ensures FindPin(f, dir).Found? ==>
              && Succeeded(f.enumPins) && Succeeded(FindPin(f, dir).hr)
              && FindPin(f, dir).index < |f.pins| && Selectable(f.pins[FindPin(f, dir).index], dir)
              && forall j :: 0 <= j < FindPin(f, dir).index ==> Passed(f.pins[j], dir)
    ensures FindPin(f, dir).Missing? ==> Failed(FindPin(f, dir).hr)
  {
    FindFromSound(f.pins, dir, 0);
  }

  /** The search is decided by the first pin that is not passed: that pin is handed back if it
      is selectable, its fault code is returned otherwise, and VFW_E_NOT_FOUND is returned when
      every pin is passed. Since every pin is selectable, passed or faulty, this pins the
      result down for every input. */
  lemma {:induction false} FindFromDecidedBy(pins: seq<Pin>, dir: Direction, i: nat, j: nat)
    requires i <= j <= |pins|
    requires forall k :: i <= k < j ==> Passed(pins[k], dir)
    ensures j == |pins| ==> FindFrom(pins, dir, i) == Missing(VFW_E_NOT_FOUND)
    ensures j < |pins| && Selectable(pins[j], dir) ==>
              FindFrom(pins, dir, i).Found? && FindFrom(pins, dir, i).index == j
    ensures j < |pins| && !Selectable(pins[j], dir) && !Passed(pins[j], dir) ==>
              FindFrom(pins, dir, i) == Missing(FaultCode(pins[j]))
    decreases j - i
  {
    if i < j {
      MatchPinClassifies(pins[i], dir);
      FindFromDecidedBy(pins, dir, i + 1, j);
    } else if j < |pins| {
      MatchPinClassifies(pins[j], dir);
    }
  }

  /** FindUnconnectedPin: scans the enumerator in order until MatchPin fails or matches. */
  method FindUnconnectedPin(f: Filter, dir: Direction) returns (r: Search)
    ensures r == FindPin(f, dir)
    ensures r.Found? ==> Succeeded(r.hr) && r.index < |f.pins| && Selectable(f.pins[r.index], dir)
    ensures r.Found? ==> forall j :: 0 <= j < r.index ==> Passed(f.pins[j], dir)
    ensures r.Missing? ==> Failed(r.hr)
  {
    FindPinSound(f, dir);
    if Failed(f.enumPins) {
      return Missing(f.enumPins);
    }
    var i := 0;
    while i < |f.pins|
      invariant 0 <= i <= |f.pins|
      invariant FindFrom(f.pins, dir, 0) == FindFrom(f.pins, dir, i)
    {
      var m := MatchPin(f.pins[i], dir, false);
      if m.Error? {
        return Missing(m.hr);
      }
      if m.value {
        return Found(m.hr, i);
      }
      i := i + 1;
    }
    return Missing(VFW_E_NOT_FOUND);
  }

  // ---------------------------------------------------------------------------------------
  // ConnectFilters.

  /** Continue with `next` when the search handed back a pin, else stop with its failure. */
  function IfFound(s: Search, next: HResult): HResult {
    if s.Found? then next else s.hr
  }

  /** The filter after a Connect to the pin the search chose: DirectShow then reports that
      pin as connected. */
  function Attach(f: Filter, s: Search, connect: HResult): (g: Filter)
  {
    if s.Found? && Succeeded(connect) && s.index < |f.pins| then
      Filter(f.enumPins, f.pins[s.index := f.pins[s.index].(connectedTo := S_OK)])
    else f
  }

  /** A successful Connect marks exactly the chosen pin as connected and leaves every other
      pin, and the enumerator's answer, as they were. */
  lemma AttachMarks(f: Filter, s: Search, connect: HResult)
    ensures Attach(f, s, connect).enumPins == f.enumPins && |Attach(f, s, connect).pins| == |f.pins|
    ensures s.Found? && Succeeded(connect) && s.index < |f.pins| ==>
              IsConnected(Attach(f, s, connect).pins[s.index])
    ensures forall k :: 0 <= k < |f.pins| && !(s.Found? && Succeeded(connect) && k == s.index) ==>
              Attach(f, s, connect).pins[k] == f.pins[k]
  {
  }

  /** ConnectFilters(graph, output pin, downstream filter): finds a free input pin downstream
      and, if there is one, answers what Connect answers. */
  method ConnectPinToFilter(dest: Filter, connect: HResult) returns (hr: HResult, dest': Filter)
    ensures hr == IfFound(FindPin(dest, Input), connect)
    ensures Failed(FindPin(dest, Input).hr) ==> hr == FindPin(dest, Input).hr && dest' == dest
    ensures FindPin(dest, Input).Found? ==> hr == connect
    ensures dest' == Attach(dest, FindPin(dest, Input), connect)
  {
    var pin := FindUnconnectedPin(dest, Input);
    hr := pin.hr;
    dest' := dest;
    if Succeeded(hr) {
      hr := connect;
      dest' := Attach(dest, pin, connect);
    }
  }

  /** ConnectFilters(graph, upstream filter, downstream filter): finds a free output pin
      upstream, then continues as ConnectPinToFilter with it. */
  method ConnectFilterToFilter(src: Filter, dest: Filter, connect: HResult) returns (hr: HResult)
    ensures hr == IfFound(FindPin(src, Output), IfFound(FindPin(dest, Input), connect))
    ensures Succeeded(hr) ==> FindPin(src, Output).Found? && FindPin(dest, Input).Found? && hr == connect
    ensures FindPin(src, Output).Missing? ==> hr == FindPin(src, Output).hr
  {
    FindPinSound(dest, Input);
    var pin := FindUnconnectedPin(src, Output);
    hr := pin.hr;
    if Succeeded(hr) {
      var dest';
      hr, dest' := ConnectPinToFilter(dest, connect);
    }
  }

  /** ConnectFilters(graph, upstream filter, input pin): finds a free output pin upstream and,
      if there is one, answers what Connect answers. */
  method ConnectFilterToPin(src: Filter, connect: HResult) returns (hr: HResult)
    ensures hr == IfFound(FindPin(src, Output), connect)
    ensures Succeeded(hr) ==> FindPin(src, Output).Found? && hr == connect
    ensures FindPin(src, Output).Missing? ==> hr == FindPin(src, Output).hr
  {
    var pin := FindUnconnectedPin(src, Output);
    hr := pin.hr;
    if Succeeded(hr) {
      hr := connect;
    }
  }
}
