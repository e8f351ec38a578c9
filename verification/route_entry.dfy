/**
 * The "Calculate Route" button the three calculator pages share: it copies
 * the trimmed origin and destination into the confirmed route that the map
 * reads, but only when both are non-empty and different; and the page's
 * "unconfirmed changes" hint.
 */
module RouteEntry {
  import opened Text

  /** The confirmed route and whether one has been confirmed yet. */
  datatype Confirmation = Confirmation(routeConfirmed: bool, origin: string, destination: string)

  /** The state before the first confirmation. */
  const UNCONFIRMED: Confirmation := Confirmation(false, "", "")

  /** The typed locations can be confirmed: non-empty and different once trimmed. */
  predicate Confirmable(origin: string, destination: string) {
    Trim(origin) != [] && Trim(destination) != [] && Trim(origin) != Trim(destination)
  }

  /** `handleCalculateRoute`. */
  function CalculateRoute(c: Confirmation, origin: string, destination: string): (r: Confirmation)
    ensures Confirmable(origin, destination) ==> r.routeConfirmed
    ensures !Confirmable(origin, destination) ==> r == c
    ensures r != c ==> r.origin != [] && r.destination != [] && r.origin != r.destination
  {
    if Trim(origin) == [] || Trim(destination) == [] then c
    else if Trim(origin) == Trim(destination) then c
    else Confirmation(true, Trim(origin), Trim(destination))
  }

  /** `hasUnconfirmedChanges`: a route is confirmed and a trimmed input differs from it. */
  predicate HasUnconfirmedChanges(c: Confirmation, origin: string, destination: string): (pending: bool)
    ensures !c.routeConfirmed ==> !pending
    ensures c.routeConfirmed ==> (pending <==> (Trim(origin), Trim(destination)) != (c.origin, c.destination))
  {
    c.routeConfirmed && (Trim(origin) != c.origin || Trim(destination) != c.destination)
  }

  /** Before any confirmation there is never an unconfirmed change. */
  lemma NothingPendingInitially(origin: string, destination: string)
    ensures !HasUnconfirmedChanges(UNCONFIRMED, origin, destination)
  {
  }

  /**
   * Confirming clears the hint, and the hint comes back exactly when an input
   * changes other than by white space around it.
   */
  lemma ConfirmClearsChanges(c: Confirmation, origin: string, destination: string, origin': string, destination': string)
    requires Confirmable(origin, destination)
    ensures var r := CalculateRoute(c, origin, destination);
      && !HasUnconfirmedChanges(r, origin, destination)
      && (HasUnconfirmedChanges(r, origin', destination') <==>
            Trim(origin') != Trim(origin) || Trim(destination') != Trim(destination))
  {
  }

  /** White space typed around a confirmed location is not an unconfirmed change. */
  lemma PaddingIsNoChange(c: Confirmation, origin: string, destination: string, pre: string, post: string)
    requires Confirmable(origin, destination)
    requires forall i :: 0 <= i < |pre| ==> IsSpace(pre[i])
    requires forall i :: 0 <= i < |post| ==> IsSpace(post[i])
    ensures !HasUnconfirmedChanges(CalculateRoute(c, origin, destination), pre + origin + post, destination)
  {
    TrimIgnoresPadding(pre, origin, post);
  }

  /** Trimming a trimmed string changes nothing. */
  lemma TrimIdempotent(s: string)
    ensures Trim(Trim(s)) == Trim(s)
  {
    TrimShape(s);
  }

  /**
   * A confirmed route is already trimmed, so the map component, which trims
   * again, sees the same two different, non-empty locations.
   */
  lemma ConfirmedRouteIsTrimmed(c: Confirmation, origin: string, destination: string)
    requires Confirmable(origin, destination)
    ensures var r := CalculateRoute(c, origin, destination);
      && Trim(r.origin) == r.origin && Trim(r.destination) == r.destination
      && Confirmable(r.origin, r.destination)
  {
    TrimIdempotent(origin);
    TrimIdempotent(destination);
  }
}
