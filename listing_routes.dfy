/** routes/property.py, the five listing endpoints: each fetches documents, runs
    the loop body of `Listing` over them in order and answers the list, or the
    error the first failing document raises, wrapped as the endpoint wraps it. */
module ListingRoutes {
  import opened Values
  import opened Errors
  import opened Security
  import opened Listing
  import PropertyQuery

  /** `out` is `docs` reshaped one by one, in the order they were fetched. */
  predicate NormalizedAll(shape: Shape, docs: seq<Doc>, out: seq<Record>)
  {
    && |out| == |docs|
    && forall i :: 0 <= i < |docs| ==> NormalizeListing(shape, docs[i]) == Ok(out[i])
  }

  /** Document `i` is the first whose loop body raises, and it raises `f`. */
  predicate FirstFault(shape: Shape, docs: seq<Doc>, i: nat, f: Fault)
  {
    && i < |docs|
    && NormalizeListing(shape, docs[i]) == Err(f)
    && forall j :: 0 <= j < i ==> NormalizeListing(shape, docs[j]).Ok?
  }

  /** The `for prop in ...` loop that appends each reshaped `prop` to `properties`;
      an exception leaves the loop at the first document that raises it. */
  method NormalizeAll(shape: Shape, docs: seq<Doc>) returns (r: Result<seq<Record>, Fault>)
    ensures r.Ok? <==> forall i :: 0 <= i < |docs| ==> Listable(shape, docs[i])
    ensures r.Ok? ==> NormalizedAll(shape, docs, r.value)
    ensures r.Err? ==> exists i :: FirstFault(shape, docs, i, r.error)
  {
    var properties: seq<Record> := [];
    for i := 0 to |docs|
      invariant |properties| == i
      invariant forall j :: 0 <= j < i ==> NormalizeListing(shape, docs[j]) == Ok(properties[j])
    {
      var prop := NormalizeListing(shape, docs[i]);
      if prop.Err? {
        assert FirstFault(shape, docs, i, prop.error);
        FaultNotListable(shape, docs, i, prop.error);
        return Err(prop.error);
      }
      properties := properties + [prop.value];
    }
    NormalizedListable(shape, docs, properties);
    return Ok(properties);
  }

  /** A document the loop body gets through is one `Listable` admits. */
  lemma NormalizedListable(shape: Shape, docs: seq<Doc>, out: seq<Record>)
    requires NormalizedAll(shape, docs, out)
    ensures forall i :: 0 <= i < |docs| ==> Listable(shape, docs[i])
  {
    forall i | 0 <= i < |docs| ensures Listable(shape, docs[i]) {
      NormalizeListingSucceeds(shape, docs[i]);
    }
  }

  /** A document the loop body raises on is one `Listable` refuses. */
  lemma FaultNotListable(shape: Shape, docs: seq<Doc>, i: nat, f: Fault)
    requires FirstFault(shape, docs, i, f)
    ensures !Listable(shape, docs[i])
  {
    NormalizeListingSucceeds(shape, docs[i]);
  }

  /** What an endpoint answers for the documents it fetched: the reshaped list when
      every document gets through, otherwise the first fault, either as FastAPI's
      generic 500 (`generic`, no handler in the route) or as the route's own
      `except Exception as e: raise HTTPException(500, str(e))`. */
  ghost predicate Answers(shape: Shape, docs: seq<Doc>, r: Result<seq<Record>, HttpError>, generic: bool)
  {
    && (r.Ok? <==> forall i :: 0 <= i < |docs| ==> Listable(shape, docs[i]))
    && (r.Ok? ==> NormalizedAll(shape, docs, r.value))
    && (r.Err? ==> exists i, f :: FirstFault(shape, docs, i, f) && r.error == (if generic then InternalServerError else RewrappedFault(f)))
  }

  /** The document that raises first, and what it raises, are fixed by `docs`. */
  lemma FirstFaultUnique(shape: Shape, docs: seq<Doc>, i: nat, f: Fault, j: nat, g: Fault)
    requires FirstFault(shape, docs, i, f) && FirstFault(shape, docs, j, g)
    ensures i == j && f == g
  {
  }

  /** An endpoint's answer is determined by the documents it fetched. */
  lemma AnswersUnique(shape: Shape, docs: seq<Doc>, r: Result<seq<Record>, HttpError>, s: Result<seq<Record>, HttpError>, generic: bool)
    requires Answers(shape, docs, r, generic) && Answers(shape, docs, s, generic)
    ensures r == s
  {
    if r.Ok? {
      assert r.value == s.value;
    } else {
      var i, f :| FirstFault(shape, docs, i, f) && r.error == (if generic then InternalServerError else RewrappedFault(f));
      var j, g :| FirstFault(shape, docs, j, g) && s.error == (if generic then InternalServerError else RewrappedFault(g));
      FirstFaultUnique(shape, docs, i, f, j, g);
    }
  }

  /** `.limit(4)` on a cursor. */
  function Limit(docs: seq<Doc>, n: nat): (r: seq<Doc>)
    ensures |r| <= n && |r| <= |docs|
    ensures forall i :: 0 <= i < |r| ==> r[i] == docs[i]
    ensures |docs| <= n ==> r == docs
  {
    if |docs| <= n then docs else docs[..n]
  }

  /** `get_user_properties`: the token guard, then the owner's documents
      (`find({"listedBy": sub})`, `sub` possibly absent) through the loop body
      without location or description handling. There is no handler: a fault
      escapes to FastAPI. */
  method GetUserProperties(crypto: Crypto, token: string, findListedBy: Option<string> -> seq<Doc>)
    returns (r: Result<seq<Record>, HttpError>)
    ensures TokenSubject(crypto, token).Err? ==> r == Err(Raise(401, "Invalid token"))
    ensures TokenSubject(crypto, token).Ok? ==>
      Answers(Owner, findListedBy(TokenSubject(crypto, token).value), r, true)
  {
    var payload := TokenSubject(crypto, token);
    if payload.Err? {
      return Err(payload.error);
    }
    var properties := NormalizeAll(Owner, findListedBy(payload.value));
    if properties.Err? {
      return Err(InternalServerError);
    }
    return Ok(properties.value);
  }

  /** `get_properties`: every stored document, in the order the store returns them. */
  method GetProperties(find: PropertyQuery.Query -> seq<Doc>) returns (r: Result<seq<Record>, HttpError>)
    ensures Answers(Public, find(map[]), r, false)
  {
    var properties := NormalizeAll(Public, find(map[]));
    if properties.Err? {
      return Err(RewrappedFault(properties.error));
    }
    return Ok(properties.value);
  }

  /** `get_office_properties`: the office documents, newest first as `sorted` returns
      them, at most four. */
  method GetOfficeProperties(sorted: PropertyQuery.Query -> seq<Doc>) returns (r: Result<seq<Record>, HttpError>)
    ensures Answers(Public, Limit(sorted(PropertyQuery.OfficeQuery), 4), r, false)
    ensures r.Ok? ==> |r.value| <= 4
  {
    var properties := NormalizeAll(Public, Limit(sorted(PropertyQuery.OfficeQuery), 4));
    if properties.Err? {
      return Err(RewrappedFault(properties.error));
    }
    return Ok(properties.value);
  }

  /** `get_land_properties`: the same for the three land types. */
  method GetLandProperties(sorted: PropertyQuery.Query -> seq<Doc>) returns (r: Result<seq<Record>, HttpError>)
    ensures Answers(Public, Limit(sorted(PropertyQuery.LandQuery), 4), r, false)
    ensures r.Ok? ==> |r.value| <= 4
  {
    var properties := NormalizeAll(Public, Limit(sorted(PropertyQuery.LandQuery), 4));
    if properties.Err? {
      return Err(RewrappedFault(properties.error));
    }
    return Ok(properties.value);
  }

  /** `get_filtered_properties`: the query the parameters describe, or the 400 for an
      unreadable price bound, which the route's own handler turns into a 500. */
  method GetFilteredProperties(params: PropertyQuery.FilterParams, parse: string -> Option<real>, find: PropertyQuery.Query -> seq<Doc>)
    returns (r: Result<seq<Record>, HttpError>)
    ensures PropertyQuery.PriceRejected(params, parse) ==> r == Err(Rewrapped(400, "Invalid price format"))
    ensures !PropertyQuery.PriceRejected(params, parse) ==>
      Answers(Filtered, find(PropertyQuery.Expected(params, parse)), r, false)
  {
    var query := PropertyQuery.BuildQuery(params, parse);
    if query.Err? {
      return Err(Rewrapped(query.error.status, query.error.detail.s));
    }
    var properties := NormalizeAll(Filtered, find(query.value));
    if properties.Err? {
      return Err(RewrappedFault(properties.error));
    }
    return Ok(properties.value);
  }
}
