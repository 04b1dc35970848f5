/** routes/property.py, `get_filtered_properties`: the optional query parameters
    and the query document they are turned into. The document is kept inert:
    how the store evaluates it is not part of this model. */
module PropertyQuery {
  import opened Values
  import opened Errors
  import Listing


  /** The field paths a clause is filed under; `Either` is the top-level `$or`. */
  datatype Path =
    | LocationCity | Price | Bhk | PropertyType | AvailabilityStatus | PropertyStatus
    | Parking | Lift | Security | AnyConstructionDone | PlotFacing | TransactionType
    | Internet | PublicTransport | Either | Title

  /** The key the path is written under in the query document. */
  function PathText(path: Path): string
  {
    match path
    case LocationCity => "location.city"
    case Price => "price"
    case Bhk => "bhk"
    case PropertyType => "propertyType"
    case AvailabilityStatus => "availabilityStatus"
    case PropertyStatus => "propertyStatus"
    case Parking => "amenities.parking"
    case Lift => "amenities.lift"
    case Security => "amenities.security"
    case AnyConstructionDone => "propertyFeatures.anyConstructionDone"
    case PlotFacing => "propertyFeatures.plotFacing"
    case TransactionType => "propertyFeatures.transactionType"
    case Internet => "amenities.internet"
    case PublicTransport => "amenities.publicTransport"
    case Either => "$or"
    case Title => "title"
  }

  /** One clause of a query document. */
  datatype Cond =
    | Regex(pattern: string)                          // {"$regex": pattern, "$options": "i"}
    | Equals(value: string)                           // the value itself
    | In(values: seq<string>)                         // {"$in": values}
    | PriceRange(gte: Option<real>, lte: Option<real>) // {"$gte": ..., "$lte": ...}, each only when present
    | AnyOf(alternatives: seq<map<Path, Cond>>)       // {"$or": alternatives}

  type Query = map<Path, Cond>

  /** The sixteen optional query parameters of the filtered listing. */
  datatype FilterParams = FilterParams(
    location: Option<string>, priceMin: Option<string>, priceMax: Option<string>,
    bhk: Option<string>, propertyType: Option<string>, availabilityStatus: Option<string>,
    propertyStatus: Option<string>, parking: Option<string>, lift: Option<string>,
    security: Option<string>, anyConstructionDone: Option<string>, plotFacing: Option<string>,
    transactionType: Option<string>, internet: Option<string>, publicTransport: Option<string>,
    search: Option<string>)

  /** Python truthiness of an optional text: present and non-empty. */
  predicate Given(o: Option<string>)
  {
    o.Some? && o.value != ""
  }

  function TextOf(o: Option<string>): string
  {
    if o.Some? then o.value else ""
  }

  /** Whether the parameters put a clause under `path`. */
  predicate Supplied(p: FilterParams, path: Path)
  {
    match path
    case LocationCity => Given(p.location)
    case Price => Given(p.priceMin) || Given(p.priceMax)
    case Bhk => Given(p.bhk)
    case PropertyType => Given(p.propertyType)
    case AvailabilityStatus => Given(p.availabilityStatus)
    case PropertyStatus => Given(p.propertyStatus)
    case Parking => Given(p.parking)
    case Lift => Given(p.lift)
    case Security => Given(p.security)
    case AnyConstructionDone => Given(p.anyConstructionDone)
    case PlotFacing => Given(p.plotFacing)
    case TransactionType => Given(p.transactionType)
    case Internet => Given(p.internet)
    case PublicTransport => Given(p.publicTransport)
    case Either => Given(p.search)
    case Title => false
  }

  /** A price bound `float()` cannot read: `parse` stands for `float` on text. */
  predicate PriceRejected(p: FilterParams, parse: string -> Option<real>)
  {
    || (Given(p.priceMin) && parse(p.priceMin.value).None?)
    || (Given(p.priceMax) && parse(p.priceMax.value).None?)
  }

  function Bound(o: Option<string>, parse: string -> Option<real>): Option<real>
  {
    if Given(o) then parse(o.value) else None
  }

  /** The clause each path receives when it is supplied. */
  function Clause(p: FilterParams, parse: string -> Option<real>, path: Path): Cond
  {
    match path
    case LocationCity => Regex(TextOf(p.location))
    case Price => PriceRange(Bound(p.priceMin, parse), Bound(p.priceMax, parse))
    case Bhk => Equals(TextOf(p.bhk))
    case PropertyType => Regex(TextOf(p.propertyType))
    case AvailabilityStatus => Equals(TextOf(p.availabilityStatus))
    case PropertyStatus => Equals(TextOf(p.propertyStatus))
    case Parking => Equals(TextOf(p.parking))
    case Lift => Equals(TextOf(p.lift))
    case Security => Equals(TextOf(p.security))
    case AnyConstructionDone => Equals(TextOf(p.anyConstructionDone))
    case PlotFacing => In([TextOf(p.plotFacing), "N/A"])
    case TransactionType => Equals(TextOf(p.transactionType))
    case Internet => Equals(TextOf(p.internet))
    case PublicTransport => Equals(TextOf(p.publicTransport))
    case Either => AnyOf([map[Title := Regex(TextOf(p.search))], map[LocationCity := Regex(TextOf(p.search))]])
    case Title => Regex("")
  }

  /** The paths in the order the handler considers them (`Title` only ever appears
      inside the `$or` alternatives). */
  const Order: seq<Path> :=
    [LocationCity, Price, Bhk, PropertyType, AvailabilityStatus, PropertyStatus, Parking, Lift,
     Security, AnyConstructionDone, PlotFacing, TransactionType, Internet, PublicTransport, Either]

  /** The clauses of the first `n` paths of `Order` that are supplied. */
  function ClausesUpTo(p: FilterParams, parse: string -> Option<real>, n: nat): Query
    requires n <= |Order|
  {
    if n == 0 then map[]
    else
      var q := ClausesUpTo(p, parse, n - 1);
      var path := Order[n - 1];
      if Supplied(p, path) then q[path := Clause(p, parse, path)] else q
  }

  /** The query the parameters describe: a clause for each supplied path, and nothing else. */
  function Expected(p: FilterParams, parse: string -> Option<real>): Query
  {
    ClausesUpTo(p, parse, |Order|)
  }

  lemma {:induction false} ClausesUpToShape(p: FilterParams, parse: string -> Option<real>, n: nat)
    requires n <= |Order|
    ensures forall path :: path in ClausesUpTo(p, parse, n) <==> path in Order[..n] && Supplied(p, path)
    ensures forall path :: path in ClausesUpTo(p, parse, n) ==> ClausesUpTo(p, parse, n)[path] == Clause(p, parse, path)
  {
    if n > 0 {
      ClausesUpToShape(p, parse, n - 1);
      assert Order[..n] == Order[..n - 1] + [Order[n - 1]];
    }
  }

  /** Exactly the supplied paths carry a clause, and each carries its own. */
  lemma ExpectedClauses(p: FilterParams, parse: string -> Option<real>)
    ensures forall path :: path in Expected(p, parse) <==> Supplied(p, path)
    ensures forall path :: path in Expected(p, parse) ==> Expected(p, parse)[path] == Clause(p, parse, path)
  {
    ClausesUpToShape(p, parse, |Order|);
    assert Order[..|Order|] == Order;
    forall path | Supplied(p, path) ensures path in Order {
      InOrder(path);
    }
  }

  /** Every path but `Title` is one the handler considers. */
  lemma InOrder(path: Path)
    requires path != Title
    ensures path in Order
  {
    match path
    case LocationCity => assert Order[0] == path;
    case Price => assert Order[1] == path;
    case Bhk => assert Order[2] == path;
    case PropertyType => assert Order[3] == path;
    case AvailabilityStatus => assert Order[4] == path;
    case PropertyStatus => assert Order[5] == path;
    case Parking => assert Order[6] == path;
    case Lift => assert Order[7] == path;
    case Security => assert Order[8] == path;
    case AnyConstructionDone => assert Order[9] == path;
    case PlotFacing => assert Order[10] == path;
    case TransactionType => assert Order[11] == path;
    case Internet => assert Order[12] == path;
    case PublicTransport => assert Order[13] == path;
    case Either => assert Order[14] == path;
  }

  /** No parameters, or only empty ones, give the empty query: every listing. */
  lemma ExpectedEmpty(p: FilterParams, parse: string -> Option<real>)
    requires forall path :: !Supplied(p, path)
    ensures Expected(p, parse) == map[]
  {
    ExpectedClauses(p, parse);
    assert Expected(p, parse).Keys == {};
  }

  /** One statement of the handler: `if given: query[path] = cond`. */
  function Put(query: Query, given: bool, path: Path, cond: Cond): Query
  {
    if given then query[path := cond] else query
  }

  // The handler's statements one at a time: the k-th statement of the handler
  // adds the clause of the k-th path of `Order` when that path is supplied.

  lemma LocationStep(p: FilterParams, parse: string -> Option<real>)
    ensures ClausesUpTo(p, parse, 1) == Put(ClausesUpTo(p, parse, 0), Given(p.location), LocationCity, Regex(TextOf(p.location)))
  {
  }

  lemma PriceStep(p: FilterParams, parse: string -> Option<real>)
    ensures ClausesUpTo(p, parse, 2) == Put(ClausesUpTo(p, parse, 1), Given(p.priceMin) || Given(p.priceMax), Price, PriceRange(Bound(p.priceMin, parse), Bound(p.priceMax, parse)))
  {
  }

  lemma BhkStep(p: FilterParams, parse: string -> Option<real>)
    ensures ClausesUpTo(p, parse, 3) == Put(ClausesUpTo(p, parse, 2), Given(p.bhk), Bhk, Equals(TextOf(p.bhk)))
  {
  }

  lemma PropertyTypeStep(p: FilterParams, parse: string -> Option<real>)
    ensures ClausesUpTo(p, parse, 4) == Put(ClausesUpTo(p, parse, 3), Given(p.propertyType), PropertyType, Regex(TextOf(p.propertyType)))
  {
  }

  lemma AvailabilityStatusStep(p: FilterParams, parse: string -> Option<real>)
    ensures ClausesUpTo(p, parse, 5) == Put(ClausesUpTo(p, parse, 4), Given(p.availabilityStatus), AvailabilityStatus, Equals(TextOf(p.availabilityStatus)))
  {
  }

  lemma PropertyStatusStep(p: FilterParams, parse: string -> Option<real>)
    ensures ClausesUpTo(p, parse, 6) == Put(ClausesUpTo(p, parse, 5), Given(p.propertyStatus), PropertyStatus, Equals(TextOf(p.propertyStatus)))
  {
  }

  lemma ParkingStep(p: FilterParams, parse: string -> Option<real>)
    ensures ClausesUpTo(p, parse, 7) == Put(ClausesUpTo(p, parse, 6), Given(p.parking), Parking, Equals(TextOf(p.parking)))
  {
  }

  lemma LiftStep(p: FilterParams, parse: string -> Option<real>)
    ensures ClausesUpTo(p, parse, 8) == Put(ClausesUpTo(p, parse, 7), Given(p.lift), Lift, Equals(TextOf(p.lift)))
  {
  }

  lemma SecurityStep(p: FilterParams, parse: string -> Option<real>)
    ensures ClausesUpTo(p, parse, 9) == Put(ClausesUpTo(p, parse, 8), Given(p.security), Security, Equals(TextOf(p.security)))
  {
  }

  lemma ConstructionStep(p: FilterParams, parse: string -> Option<real>)
    ensures ClausesUpTo(p, parse, 10) == Put(ClausesUpTo(p, parse, 9), Given(p.anyConstructionDone), AnyConstructionDone, Equals(TextOf(p.anyConstructionDone)))
  {
  }

  lemma PlotFacingStep(p: FilterParams, parse: string -> Option<real>)
    ensures ClausesUpTo(p, parse, 11) == Put(ClausesUpTo(p, parse, 10), Given(p.plotFacing), PlotFacing, In([TextOf(p.plotFacing), "N/A"]))
  {
  }

  lemma TransactionTypeStep(p: FilterParams, parse: string -> Option<real>)
    ensures ClausesUpTo(p, parse, 12) == Put(ClausesUpTo(p, parse, 11), Given(p.transactionType), TransactionType, Equals(TextOf(p.transactionType)))
  {
  }

  lemma InternetStep(p: FilterParams, parse: string -> Option<real>)
    ensures ClausesUpTo(p, parse, 13) == Put(ClausesUpTo(p, parse, 12), Given(p.internet), Internet, Equals(TextOf(p.internet)))
  {
  }

  lemma PublicTransportStep(p: FilterParams, parse: string -> Option<real>)
    ensures ClausesUpTo(p, parse, 14) == Put(ClausesUpTo(p, parse, 13), Given(p.publicTransport), PublicTransport, Equals(TextOf(p.publicTransport)))
  {
  }

  lemma SearchStep(p: FilterParams, parse: string -> Option<real>)
    ensures ClausesUpTo(p, parse, 15) == Put(ClausesUpTo(p, parse, 14), Given(p.search), Either, AnyOf([map[Title := Regex(TextOf(p.search))], map[LocationCity := Regex(TextOf(p.search))]]))
  {
  }

  /** The statements of the handler that build `query`, in the source's order. The
      400 for an unreadable price bound is raised before any later clause. */
  method BuildQuery(p: FilterParams, parse: string -> Option<real>) returns (r: Result<Query, HttpError>)
    ensures r.Err? <==> PriceRejected(p, parse)
    ensures r.Err? ==> r.error == Raise(400, "Invalid price format")
    ensures r.Ok? ==> r.value == Expected(p, parse)
    ensures r.Ok? ==> forall path :: path in r.value <==> Supplied(p, path)
    ensures r.Ok? ==> forall path :: path in r.value ==> r.value[path] == Clause(p, parse, path)
  {
    var query: Query := map[];
    query := Put(query, Given(p.location), LocationCity, Regex(TextOf(p.location)));
    LocationStep(p, parse);
    assert query == ClausesUpTo(p, parse, 1);
    if Given(p.priceMin) || Given(p.priceMax) {
      var gte: Option<real> := None;
      var lte: Option<real> := None;
      if Given(p.priceMin) {
        gte := parse(p.priceMin.value);
        if gte.None? {
          return Err(Raise(400, "Invalid price format"));
        }
      }
      if Given(p.priceMax) {
        lte := parse(p.priceMax.value);
        if lte.None? {
          return Err(Raise(400, "Invalid price format"));
        }
      }
      query := query[Price := PriceRange(gte, lte)];
    }
    PriceStep(p, parse);
    assert query == ClausesUpTo(p, parse, 2);
    query := Put(query, Given(p.bhk), Bhk, Equals(TextOf(p.bhk)));
    BhkStep(p, parse);
    assert query == ClausesUpTo(p, parse, 3);
    query := Put(query, Given(p.propertyType), PropertyType, Regex(TextOf(p.propertyType)));
    PropertyTypeStep(p, parse);
    assert query == ClausesUpTo(p, parse, 4);
    query := Put(query, Given(p.availabilityStatus), AvailabilityStatus, Equals(TextOf(p.availabilityStatus)));
    AvailabilityStatusStep(p, parse);
    assert query == ClausesUpTo(p, parse, 5);
    query := Put(query, Given(p.propertyStatus), PropertyStatus, Equals(TextOf(p.propertyStatus)));
    PropertyStatusStep(p, parse);
    assert query == ClausesUpTo(p, parse, 6);
    query := Put(query, Given(p.parking), Parking, Equals(TextOf(p.parking)));
    ParkingStep(p, parse);
    assert query == ClausesUpTo(p, parse, 7);
    query := Put(query, Given(p.lift), Lift, Equals(TextOf(p.lift)));
    LiftStep(p, parse);
    assert query == ClausesUpTo(p, parse, 8);
    query := Put(query, Given(p.security), Security, Equals(TextOf(p.security)));
    SecurityStep(p, parse);
    assert query == ClausesUpTo(p, parse, 9);
    query := Put(query, Given(p.anyConstructionDone), AnyConstructionDone, Equals(TextOf(p.anyConstructionDone)));
    ConstructionStep(p, parse);
    assert query == ClausesUpTo(p, parse, 10);
    query := Put(query, Given(p.plotFacing), PlotFacing, In([TextOf(p.plotFacing), "N/A"]));
    PlotFacingStep(p, parse);
    assert query == ClausesUpTo(p, parse, 11);
    query := Put(query, Given(p.transactionType), TransactionType, Equals(TextOf(p.transactionType)));
    TransactionTypeStep(p, parse);
    assert query == ClausesUpTo(p, parse, 12);
    query := Put(query, Given(p.internet), Internet, Equals(TextOf(p.internet)));
    InternetStep(p, parse);
    assert query == ClausesUpTo(p, parse, 13);
    query := Put(query, Given(p.publicTransport), PublicTransport, Equals(TextOf(p.publicTransport)));
    PublicTransportStep(p, parse);
    assert query == ClausesUpTo(p, parse, 14);
    query := Put(query, Given(p.search), Either, AnyOf([map[Title := Regex(TextOf(p.search))], map[LocationCity := Regex(TextOf(p.search))]]));
    SearchStep(p, parse);
    assert query == ClausesUpTo(p, parse, 15);
    ExpectedClauses(p, parse);
    return Ok(query);
  }

  /** The query of the offices endpoint. */
  const OfficeQuery: Query := map[PropertyType := Equals("Office")]

  /** The query of the land endpoint. */
  const LandQuery: Query := map[PropertyType := In(Listing.LandTypes)]
}
