/** The kinds of event the archive can be filtered by (`EventType`). */
module EventTypes {
  import opened Wrappers

  datatype EventType = ALL | MAJOR | INTERNATIONAL_LAN | REGIONAL_LAN | ONLINE | LOCAL_LAN

  /** The members in declaration order. */
  const Members: seq<EventType> := [ALL, MAJOR, INTERNATIONAL_LAN, REGIONAL_LAN, ONLINE, LOCAL_LAN]

  /** The member's `.value`: what the site expects in `eventType=`. */
  function Value(t: EventType): string
  {
    match t
    case ALL => "ALL"
    case MAJOR => "MAJOR"
    case INTERNATIONAL_LAN => "INTLLAN"
    case REGIONAL_LAN => "REGIONALLAN"
    case ONLINE => "ONLINE"
    case LOCAL_LAN => "LOCALLAN"
  }

  /** The member's `.name`. */
  function Name(t: EventType): string
  {
    match t
    case ALL => "ALL"
    case MAJOR => "MAJOR"
    case INTERNATIONAL_LAN => "INTERNATIONAL_LAN"
    case REGIONAL_LAN => "REGIONAL_LAN"
    case ONLINE => "ONLINE"
    case LOCAL_LAN => "LOCAL_LAN"
  }

  /** `str(t)`, which the enumeration overrides to give the name, not the value. */
  function Str(t: EventType): (s: string)
    ensures s == Name(t)
    ensures s == Value(t) <==> t in {ALL, MAJOR, ONLINE}
  {
    Name(t)
  }

  /** `EventType(v)`: the member whose value is `v`; `None` where Python raises `ValueError`. */
  function FromValue(v: string): (r: Option<EventType>)
    ensures r.Some? ==> Value(r.value) == v
    ensures r.None? ==> forall t: EventType :: Value(t) != v
  {
    if v == "ALL" then Some(ALL)
    else if v == "MAJOR" then Some(MAJOR)
    else if v == "INTLLAN" then Some(INTERNATIONAL_LAN)
    else if v == "REGIONALLAN" then Some(REGIONAL_LAN)
    else if v == "ONLINE" then Some(ONLINE)
    else if v == "LOCALLAN" then Some(LOCAL_LAN)
    else None
  }

  /** `EventType[n]`: the member named `n`; `None` where Python raises `KeyError`. */
  function FromName(n: string): (r: Option<EventType>)
    ensures r.Some? ==> Name(r.value) == n
    ensures r.None? ==> forall t: EventType :: Name(t) != n
  {
    if n == "ALL" then Some(ALL)
    else if n == "MAJOR" then Some(MAJOR)
    else if n == "INTERNATIONAL_LAN" then Some(INTERNATIONAL_LAN)
    else if n == "REGIONAL_LAN" then Some(REGIONAL_LAN)
    else if n == "ONLINE" then Some(ONLINE)
    else if n == "LOCAL_LAN" then Some(LOCAL_LAN)
    else None
  }

  /** There are exactly six members and each is listed once. */
  lemma MembersAreComplete()
    ensures |Members| == 6
    ensures forall t: EventType :: t in Members
    ensures forall i, j :: 0 <= i < j < |Members| ==> Members[i] != Members[j]
  {
    forall t: EventType ensures t in Members {
      match t
      case ALL => assert Members[0] == t;
      case MAJOR => assert Members[1] == t;
      case INTERNATIONAL_LAN => assert Members[2] == t;
      case REGIONAL_LAN => assert Members[3] == t;
      case ONLINE => assert Members[4] == t;
      case LOCAL_LAN => assert Members[5] == t;
    }
  }

  /** No two members share a value (the six values even differ in length). */
  lemma ValuesAreDistinct(t: EventType, u: EventType)
    ensures Value(t) == Value(u) <==> t == u
  {
    if Value(t) == Value(u) {
      assert |Value(t)| == |Value(u)|;
    }
  }

  /** No two members share a name. */
  lemma NamesAreDistinct(t: EventType, u: EventType)
    ensures Name(t) == Name(u) <==> t == u
  {
    if Name(t) == Name(u) {
      assert |Name(t)| == |Name(u)|;
    }
  }

  /** Looking a member up by its value, or by its name, gives it back. */
  lemma LookupsRoundTrip(t: EventType)
    ensures FromValue(Value(t)) == Some(t)
    ensures FromName(Name(t)) == Some(t)
  {
    ValuesAreDistinct(FromValue(Value(t)).value, t);
    NamesAreDistinct(FromName(Name(t)).value, t);
  }
}
