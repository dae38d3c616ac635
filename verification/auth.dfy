/**
 * The two authentication guards that wrap handlers. The client guard reads
 * a bearer token, has it verified and hands the token's priority ceiling
 * to the handler; the machine guard reads a bearer token and looks up the
 * machine that holds it. Token verification and the machine lookup are
 * parameters: both read the store, which this module does not see.
 */
module Auth {
  import opened Values
  import opened Strings
  import opened Store

  const BearerPrefix := "Bearer "

  /** `header?.startsWith('Bearer ')`: a header is present and starts with the prefix. */
  predicate IsBearer(header: Option<string>)
  {
    header.Some? && BearerPrefix <= header.value
  }

  /** `header.split(' ')[1]`: the second space-separated field. */
  function BearerToken(header: string): (t: string)
    requires BearerPrefix <= header
    ensures ' ' !in t
  {
    assert header == "Bearer" + [' '] + header[7..];
    SplitAfterSeparator("Bearer", header[7..], ' ');
    Split(header, ' ')[1]
  }

  /** The token is the text after the prefix up to the next space. */
  lemma BearerTokenIsFirstWord(t: string)
    ensures BearerToken(BearerPrefix + t) == Split(t, ' ')[0]
  {
    assert BearerPrefix + t == "Bearer" + [' '] + t;
    SplitAfterSeparator("Bearer", t, ' ');
  }

  /** A token without spaces survives the round trip through the header. */
  lemma BearerTokenRoundTrip(t: string)
    requires ' ' !in t
    ensures BearerToken(BearerPrefix + t) == t
  {
    BearerTokenIsFirstWord(t);
    SplitNoSeparator(t, ' ');
  }

  /** What token verification yields for a valid client token. */
  datatype TokenData = TokenData(maxPriority: int)

  /** The guard's outcome: a rejection the handler never sees, or the handler runs. */
  datatype Gate<T> = Reject(status: int, error: string) | Admit(context: T)

  const BadFormatMessage := "Unauthorized: Invalid token format"
  const BadTokenMessage := "Unauthorized: Invalid token"

  /**
   * `@Auth()`: 401 for a missing or non-bearer header, 403 for a token
   * that does not verify; otherwise the handler runs with `maxPriority`
   * set to the token's ceiling.
   */
  function ClientAuth(header: Option<string>, verify: string -> Option<TokenData>): (g: Gate<int>)
    ensures !IsBearer(header) ==> g == Reject(401, BadFormatMessage)
    ensures IsBearer(header) ==>
      var data := verify(BearerToken(header.value));
      && (data.None? ==> g == Reject(403, BadTokenMessage))
      && (data.Some? ==> g == Admit(data.value.maxPriority))
  {
    if !IsBearer(header) then Reject(401, BadFormatMessage)
    else
      match verify(BearerToken(header.value))
      case None => Reject(403, BadTokenMessage)
      case Some(data) => Admit(data.maxPriority)
  }

  const UnauthorizedMessage := "Unauthorized"
  const InvalidTokenMessage := "Invalid token"

  /**
   * `@AuthMachine()`: 401 'Unauthorized' for a missing or non-bearer
   * header, 401 'Invalid token' when no machine holds the token; otherwise
   * the handler runs with the matched machine in its context.
   */
  function MachineAuth(header: Option<string>, lookup: string -> Option<Machine>): (g: Gate<Machine>)
    ensures !IsBearer(header) ==> g == Reject(401, UnauthorizedMessage)
    ensures IsBearer(header) ==>
      var found := lookup(BearerToken(header.value));
      && (found.None? ==> g == Reject(401, InvalidTokenMessage))
      && (found.Some? ==> g == Admit(found.value))
  {
    if !IsBearer(header) then Reject(401, UnauthorizedMessage)
    else
      match lookup(BearerToken(header.value))
      case None => Reject(401, InvalidTokenMessage)
      case Some(m) => Admit(m)
  }

  /** `findFirst({ where: { token } })` against the store: a stored machine holding the token, if any. */
  ghost predicate LooksUpStore(lookup: string -> Option<Machine>, s: Store)
  {
    forall t ::
      && (lookup(t).Some? ==> lookup(t).value in s.machines.Values && lookup(t).value.token == t)
      && (lookup(t).None? ==> forall m :: m in s.machines.Values ==> m.token != t)
  }

  /**
   * With a lookup that reads the store, a stored machine presenting its own
   * space-free token is admitted, as a machine holding that token.
   */
  lemma MachineAuthAdmitsHolder(s: Store, lookup: string -> Option<Machine>, m: Machine)
    requires LooksUpStore(lookup, s)
    requires m in s.machines.Values && ' ' !in m.token
    ensures var g := MachineAuth(Some(BearerPrefix + m.token), lookup);
      g.Admit? && g.context in s.machines.Values && g.context.token == m.token
  {
    BearerTokenRoundTrip(m.token);
    assert lookup(m.token).Some?;
  }

  /** A machine guard admits a caller only when some stored machine holds the presented token. */
  lemma MachineAuthOnlyHolders(s: Store, lookup: string -> Option<Machine>, header: Option<string>)
    requires LooksUpStore(lookup, s)
    ensures MachineAuth(header, lookup).Admit? <==>
      IsBearer(header) && exists m :: m in s.machines.Values && m.token == BearerToken(header.value)
  {
    if IsBearer(header) {
      var t := BearerToken(header.value);
      if lookup(t).Some? {
        assert lookup(t).value in s.machines.Values;
      }
    }
  }
}
