/** Listing the services of a region from a paginated parameter store. The
    upstream is abstracted as the finite sequence of responses it gives to
    successive calls: `pages[i]` answers the i-th call of the listing. */
module ServiceLister {
  import opened Outcomes

  datatype Parameter = Parameter(name: string, value: string)

  /** One response: its parameters, and a continuation token when more follow. */
  datatype Option<T> = None | Some(value: T)
  datatype Page = Page(parameters: seq<Parameter>, nextToken: Option<string>)

  /** The `Value` of each parameter, in order. */
  function Values(params: seq<Parameter>): (values: seq<string>)
  {
    seq(|params|, i requires 0 <= i < |params| => params[i].value)
  }

  /** `prefix` put in front of a successful result; a failure stays a failure. */
  function Prepend(prefix: seq<Parameter>, rest: Result<seq<Parameter>>): Result<seq<Parameter>>
  {
    match rest
    case Ok(tail) => Ok(prefix + tail)
    case Err(e) => Err(e)
  }

  /** The parameters gathered by following continuation tokens from the first
      response; running out of responses while a token is pending fails. */
  function Collect(pages: seq<Page>): Result<seq<Parameter>>
  {
    if pages == [] then Err(ListingIncomplete)
    else if pages[0].nextToken.None? then Ok(pages[0].parameters)
    else Prepend(pages[0].parameters, Collect(pages[1..]))
  }

  /** The service identifiers a listing yields. */
  function Listing(pages: seq<Page>): Result<seq<string>>
  {
    match Collect(pages)
    case Ok(params) => Ok(Values(params))
    case Err(e) => Err(e)
  }

  /** All parameters of `pages`, concatenated in order. */
  function Flatten(pages: seq<Page>): seq<Parameter>
  {
    if pages == [] then [] else pages[0].parameters + Flatten(pages[1..])
  }

  /** `k` is the first response without a continuation token. */
  ghost predicate FinalPageAt(pages: seq<Page>, k: nat)
  {
    k < |pages| && pages[k].nextToken.None? &&
    forall i :: 0 <= i < k ==> pages[i].nextToken.Some?
  }

  lemma PrependAppend(a: seq<Parameter>, b: seq<Parameter>, rest: Result<seq<Parameter>>)
    ensures Prepend(a, Prepend(b, rest)) == Prepend(a + b, rest)
  {
    if rest.Ok? {
      assert a + (b + rest.value) == (a + b) + rest.value;
    }
  }

  /** A listing returns the values of every parameter on the responses up to and
      including the first one without a continuation token, in response order,
      and never looks at a response after it. */
  lemma {:induction false} ListingStopsAtFinalPage(pages: seq<Page>, k: nat)
    requires FinalPageAt(pages, k)
    ensures Collect(pages) == Ok(Flatten(pages[..k + 1]))
    ensures Listing(pages) == Ok(Values(Flatten(pages[..k + 1])))
  {
    if k == 0 {
      assert Flatten(pages[..k + 1]) == pages[0].parameters;
    } else {
      ListingStopsAtFinalPage(pages[1..], k - 1);
      assert pages[1..][..k] == pages[..k + 1][1..];
      assert Flatten(pages[..k + 1]) == pages[0].parameters + Flatten(pages[1..][..k]);
    }
  }

  /** A listing whose every response carries a continuation token never
      completes. */
  lemma {:induction false} ListingFailsWithoutFinalPage(pages: seq<Page>)
    requires forall i :: 0 <= i < |pages| ==> pages[i].nextToken.Some?
    ensures Collect(pages) == Err(ListingIncomplete)
    ensures Listing(pages) == Err(ListingIncomplete)
  {
    if pages != [] {
      ListingFailsWithoutFinalPage(pages[1..]);
    }
  }

  /** Responses beyond the first one without a token do not change the result. */
  lemma ListingIgnoresLaterPages(pages: seq<Page>, k: nat, later: seq<Page>)
    requires FinalPageAt(pages, k)
    ensures Listing(pages[..k + 1] + later) == Listing(pages)
  {
    var p := pages[..k + 1] + later;
    assert p[..k + 1] == pages[..k + 1];
    assert FinalPageAt(p, k);
    ListingStopsAtFinalPage(p, k);
    ListingStopsAtFinalPage(pages, k);
  }

  /** Lists a region's services: the first call, then one call per continuation
      token, accumulating every response's parameters before projecting each to
      its value. */
  method GetServices(pages: seq<Page>) returns (r: Result<seq<string>>)
    ensures r == Listing(pages)
  {
    if pages == [] {
      return Err(ListingIncomplete);
    }
    var response := pages[0];
    var calls := 1;
    var services := response.parameters;
    while response.nextToken.Some?
      invariant 1 <= calls <= |pages| && response == pages[calls - 1]
      invariant Collect(pages) ==
        if response.nextToken.None? then Ok(services)
        else Prepend(services, Collect(pages[calls..]))
      decreases |pages| - calls
    {
      if calls == |pages| {
        return Err(ListingIncomplete);
      }
      PrependAppend(services, pages[calls].parameters, Collect(pages[calls + 1..]));
      assert pages[calls..][1..] == pages[calls + 1..];
      response := pages[calls];
      calls := calls + 1;
      services := services + response.parameters;
    }
    r := Ok(Values(services));
  }
}
