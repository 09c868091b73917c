/**
 * The product controller: the performance-test endpoint driven by the
 * module-level call counter (optimized, then heavy, then 404 and reset), the
 * counter's reset and status endpoints, and the validation and default of
 * `createProduct`.
 *
 * `Math.random()` is a stream of draws `random(i)` for the i-th product, the
 * floating-point accumulation of the heavy branch is the input
 * `heavyCalculation`, and the `Date.now()` readings are parameters.
 */
module Products {
  import opened JsValues

  /** The three behaviours of the endpoint, with the label the responses carry. */
  datatype Behavior = Optimized | Heavy | Unavailable {
    function Label(): string
    {
      match this
      case Optimized => "OTIMIZADA"
      case Heavy => "PESADA"
      case Unavailable => "INDISPONÍVEL"
    }
  }

  /** The branch `performanceTest` takes once the counter has been incremented to `count`. */
  function BranchFor(count: int): (b: Behavior)
    ensures b == Optimized <==> count == 1
    ensures b == Heavy <==> count == 2
    ensures b == Unavailable <==> count != 1 && count != 2
  {
    if count == 1 then Optimized else if count == 2 then Heavy else Unavailable
  }

  const CatalogSize: nat := 1000
  const DescriptionLimit: nat := 255
  const DetailPieces: nat := 100

  datatype Product = Product(id: int, name: string, price: int, description: string,
                             isAvailable: int, deleted: int, heavyCalculation: Option<real>)

  /** The i-th product of the optimized branch; `draw` is its `Math.random()` value. */
  function OptimizedProduct(i: nat, draw: real): Product
  {
    Product(i + 1, "Produto Otimizado " + NatToString(i + 1), (draw * 1000.0).Floor + 10,
            "Descrição rápida do produto " + NatToString(i + 1), 1, 0, None)
  }

  /** `Array.from({ length: 1000 }, ...)` of the optimized branch. */
  function OptimizedProducts(random: nat -> real): (products: seq<Product>)
    ensures |products| == CatalogSize
    ensures forall i :: 0 <= i < |products| ==>
              products[i].id == i + 1 && products[i].deleted == 0 && products[i].isAvailable == 1
    ensures forall i :: 0 <= i < |products| && 0.0 <= random(i) < 1.0 ==>
              10 <= products[i].price <= 1009
  {
    var products := seq(CatalogSize, i requires 0 <= i => OptimizedProduct(i, random(i)));
    assert forall i :: 0 <= i < |products| ==> products[i] == OptimizedProduct(i, random(i));
    products
  }

  /** `Math.trunc(q)`: rounds toward zero. */
  function Trunc(q: real): int
  {
    if q >= 0.0 then q.Floor else -((-q).Floor)
  }

  /** JavaScript's `x % 1000`: the remainder takes the sign of `x`. */
  function JsRemainder1000(x: real): (r: real)
    ensures x >= 0.0 ==> 0.0 <= r < 1000.0
    ensures x < 0.0 ==> -1000.0 < r <= 0.0
  {
    x - Trunc(x / 1000.0) as real * 1000.0
  }

  /** `Math.floor(heavyCalculation % 1000) + 10`: the same for every product of a heavy response. */
  function HeavyPrice(heavyCalculation: real): (price: int)
    ensures heavyCalculation >= 0.0 ==> 10 <= price <= 1009
    ensures heavyCalculation < 0.0 ==> -990 <= price <= 10
  {
    JsRemainder1000(heavyCalculation).Floor + 10
  }

  /** The k-th sentence appended to a heavy product's description. */
  function DetailPiece(id: nat, k: nat): string
  {
    "Descrição muito detalhada e custosa do produto " + NatToString(id) + " com processamento "
      + NatToString(k) + ". "
  }

  /** The first n sentences of a heavy product's description. */
  function DetailedDescription(id: nat, n: nat): string
  {
    if n == 0 then "" else DetailedDescription(id, n - 1) + DetailPiece(id, n - 1)
  }

  lemma {:induction false} DetailedDescriptionLength(id: nat, n: nat)
    ensures |DetailedDescription(id, n)| >= 66 * n
  {
    if n > 0 {
      DetailedDescriptionLength(id, n - 1);
    }
  }

  /** `s.substring(0, end)` for a non-negative `end`. */
  function Substring(s: string, end: nat): (r: string)
    ensures r <= s && |r| == if end <= |s| then end else |s|
  {
    if end <= |s| then s[..end] else s
  }

  /** The i-th product of the heavy branch; `draw` is its `Math.random()` value. */
  function HeavyProduct(i: nat, heavyCalculation: real, draw: real): Product
  {
    Product(i + 1, "Produto Pesado " + NatToString(i + 1), HeavyPrice(heavyCalculation),
            Substring(DetailedDescription(i + 1, DetailPieces), DescriptionLimit),
            if draw > 0.5 then 1 else 0, 0, Some(heavyCalculation))
  }

  /** A heavy description is exactly the first 255 characters of its 100 sentences. */
  lemma HeavyDescriptionTruncated(i: nat, heavyCalculation: real, draw: real)
    ensures |HeavyProduct(i, heavyCalculation, draw).description| == DescriptionLimit
    ensures HeavyProduct(i, heavyCalculation, draw).description
              == DetailedDescription(i + 1, DetailPieces)[..DescriptionLimit]
  {
    DetailedDescriptionLength(i + 1, DetailPieces);
  }

  datatype PerformanceResponse =
    | Listing(behavior: Behavior, callNumber: int, executionTimeMs: int, totalProducts: nat,
              products: seq<Product>)
    | NotFound(callNumber: int, executionTimeMs: int)
    | ServerError(error: string, executionTimeMs: int, callNumber: int)
  {
    function StatusCode(): int
    {
      match this
      case Listing(_, _, _, _, _) => 200
      case NotFound(_, _) => 404
      case ServerError(_, _, _) => 500
    }

    function Performance(): string
      requires !ServerError?
    {
      if Listing? then behavior.Label() else Unavailable.Label()
    }
  }

  datatype ResetResult = ResetResult(message: string, counter: int)

  datatype CounterStatus = CounterStatus(currentCount: int, nextBehavior: string)

  /**
   * The controller's module-level state: `productCallCount`. Calls are
   * sequential; between two of them the counter is 0, 1 or 2.
   */
  class ProductController {
    var productCallCount: int

    ghost predicate Valid()
      reads this
    {
      0 <= productCallCount <= 2
    }

    constructor ()
      ensures Valid() && productCallCount == 0
    {
      productCallCount := 0;
    }

    /**
     * `performanceTest`: increments the counter, then answers with the
     * optimized list, the heavy list, or a 404 that resets the counter.
     * `sendFailure` is an error thrown while the branch sends its response.
     */
    method PerformanceTest(startTime: int, responseTime: int, errorTime: int, random: nat -> real,
                           heavyCalculation: real, sendFailure: Option<JsError>)
      returns (resp: PerformanceResponse)
      requires Valid()
      modifies this
      ensures Valid()
      ensures BranchFor(old(productCallCount) + 1) == Unavailable ==> productCallCount == 0
      ensures BranchFor(old(productCallCount) + 1) != Unavailable ==> productCallCount == old(productCallCount) + 1
      ensures sendFailure.Some? ==>
                resp == ServerError(sendFailure.value.message, errorTime - startTime, productCallCount)
      ensures sendFailure.None? && BranchFor(old(productCallCount) + 1) == Optimized ==>
                resp == Listing(Optimized, 1, responseTime - startTime, CatalogSize, OptimizedProducts(random))
      ensures sendFailure.None? && BranchFor(old(productCallCount) + 1) == Heavy ==>
                && resp.Listing? && resp.behavior == Heavy && resp.callNumber == 2
                && resp.executionTimeMs == responseTime - startTime
                && resp.totalProducts == |resp.products| == CatalogSize
                && forall i :: 0 <= i < CatalogSize ==>
                     resp.products[i] == HeavyProduct(i, heavyCalculation, random(i))
      ensures sendFailure.None? && BranchFor(old(productCallCount) + 1) == Unavailable ==>
                resp == NotFound(3, responseTime - startTime)
    {
      productCallCount := productCallCount + 1;
      if productCallCount == 1 {
        resp := HandleOptimizedResponse(startTime, responseTime, random);
      } else if productCallCount == 2 {
        resp := HandleHeavyProcessing(startTime, responseTime, heavyCalculation, random);
      } else {
        resp := HandleNotFoundAndReset(startTime, responseTime);
      }
      if sendFailure.Some? {
        resp := ServerError(sendFailure.value.message, errorTime - startTime, productCallCount);
      }
    }

    /** `_handleOptimizedResponse`: 1000 in-memory products. */
    method HandleOptimizedResponse(startTime: int, responseTime: int, random: nat -> real)
      returns (resp: PerformanceResponse)
      ensures resp == Listing(Optimized, productCallCount, responseTime - startTime, CatalogSize,
                              OptimizedProducts(random))
    {
      var products := OptimizedProducts(random);
      resp := Listing(Optimized, productCallCount, responseTime - startTime, |products|, products);
    }

    /**
     * `_handleHeavyProcessing`: 1000 products, each with a description built
     * from 100 sentences and cut to 255 characters.
     */
    method HandleHeavyProcessing(startTime: int, responseTime: int, heavyCalculation: real,
                                 random: nat -> real)
      returns (resp: PerformanceResponse)
      ensures resp.Listing? && resp.behavior == Heavy && resp.callNumber == productCallCount
      ensures resp.executionTimeMs == responseTime - startTime
      ensures resp.totalProducts == |resp.products| == CatalogSize
      ensures forall i :: 0 <= i < CatalogSize ==>
                resp.products[i] == HeavyProduct(i, heavyCalculation, random(i))
      ensures forall i :: 0 <= i < CatalogSize ==>
                resp.products[i].id == i + 1 && resp.products[i].deleted == 0
                && |resp.products[i].description| <= DescriptionLimit
    {
      var products: seq<Product> := [];
      var i := 0;
      while i < CatalogSize
        invariant 0 <= i <= CatalogSize
        invariant |products| == i
        invariant forall j :: 0 <= j < i ==> products[j] == HeavyProduct(j, heavyCalculation, random(j))
      {
        var description := "";
        var k := 0;
        while k < DetailPieces
          invariant 0 <= k <= DetailPieces
          invariant description == DetailedDescription(i + 1, k)
        {
          description := description + DetailPiece(i + 1, k);
          k := k + 1;
        }
        products := products + [Product(i + 1, "Produto Pesado " + NatToString(i + 1),
                                        HeavyPrice(heavyCalculation), Substring(description, DescriptionLimit),
                                        if random(i) > 0.5 then 1 else 0, 0, Some(heavyCalculation))];
        i := i + 1;
      }
      resp := Listing(Heavy, productCallCount, responseTime - startTime, |products|, products);
    }

    /** `_handleNotFoundAndReset`: resets the counter; the 404 always reports call number 3. */
    method HandleNotFoundAndReset(startTime: int, responseTime: int) returns (resp: PerformanceResponse)
      modifies this
      ensures productCallCount == 0
      ensures resp == NotFound(3, responseTime - startTime)
      ensures resp.StatusCode() == 404 && resp.Performance() == "INDISPONÍVEL"
    {
      productCallCount := 0;
      resp := NotFound(3, responseTime - startTime);
    }

    /** `resetCounter`: forces the counter to 0 and reports it. */
    method ResetCounter() returns (r: ResetResult)
      modifies this
      ensures Valid() && productCallCount == 0
      ensures r == ResetResult("Contador resetado com sucesso", 0)
    {
      productCallCount := 0;
      r := ResetResult("Contador resetado com sucesso", productCallCount);
    }

    /** `getCounterStatus`: the current count and the behaviour the next call will show. */
    function GetCounterStatus(): (s: CounterStatus)
      reads this
      ensures s.currentCount == productCallCount
      ensures s.nextBehavior == BranchFor(productCallCount + 1).Label()
    {
      CounterStatus(productCallCount,
                    if productCallCount == 0 then "OTIMIZADA"
                    else if productCallCount == 1 then "PESADA"
                    else "INDISPONÍVEL")
    }
  }

  /**
   * Three sequential calls from a fresh counter: optimized, heavy, then the
   * 404, after which the counter is back at 0 and the cycle starts again.
   */
  method ThreeCallsCycle(startTime: int, responseTime: int, errorTime: int, random: nat -> real,
                         heavyCalculation: real)
    returns (first: PerformanceResponse, second: PerformanceResponse, third: PerformanceResponse,
             next: CounterStatus)
    ensures first.Listing? && first.behavior == Optimized && first.callNumber == 1
    ensures second.Listing? && second.behavior == Heavy && second.callNumber == 2
    ensures third.NotFound? && third.callNumber == 3
    ensures next == CounterStatus(0, "OTIMIZADA")
  {
    var controller := new ProductController();
    first := controller.PerformanceTest(startTime, responseTime, errorTime, random, heavyCalculation, None);
    second := controller.PerformanceTest(startTime, responseTime, errorTime, random, heavyCalculation, None);
    third := controller.PerformanceTest(startTime, responseTime, errorTime, random, heavyCalculation, None);
    next := controller.GetCounterStatus();
  }

  /** The fields `createProduct` reads from the request body; an absent field is `Undefined`. */
  datatype ProductBody = ProductBody(name: Value, price: Value, description: Value, isAvailable: Value)

  /** The record handed to `Product.create`. */
  datatype NewProduct = NewProduct(name: Value, price: Value, description: Value, isAvailable: Value)

  datatype CreateProductResponse = BadRequest(error: string) | Created(product: Value) | CreateFailed(error: string)
  {
    function StatusCode(): int
    {
      match this
      case BadRequest(_) => 400
      case Created(_) => 201
      case CreateFailed(_) => 500
    }
  }

  /** What `createProduct` inserted, if anything, and what it answered. */
  datatype CreateProductResult = CreateProductResult(inserted: Option<NewProduct>, response: CreateProductResponse)

  /**
   * `createProduct`: a falsy name or price is a 400 and nothing is inserted
   * (so a price of 0 is rejected); otherwise the record is inserted with
   * `isAvailable` defaulting to 1 only when it is absent.
   */
  function CreateProduct(body: ProductBody, insert: NewProduct -> Outcome): (r: CreateProductResult)
    ensures r.response.BadRequest? <==> !Truthy(body.name) || !Truthy(body.price)
    ensures r.inserted.Some? <==> !r.response.BadRequest?
    ensures r.inserted.Some? ==>
              && r.inserted.value.name == body.name && r.inserted.value.price == body.price
              && r.inserted.value.description == body.description
              && (body.isAvailable.Undefined? ==> r.inserted.value.isAvailable == Int(1))
              && (!body.isAvailable.Undefined? ==> r.inserted.value.isAvailable == body.isAvailable)
    ensures r.inserted.Some? && insert(r.inserted.value).Returned? ==>
              r.response == Created(insert(r.inserted.value).value)
    ensures r.inserted.Some? && insert(r.inserted.value).Threw? ==>
              r.response == CreateFailed(insert(r.inserted.value).error.message)
  {
    if !Truthy(body.name) || !Truthy(body.price) then
      CreateProductResult(None, BadRequest("Nome e preço são obrigatórios"))
    else
      var record := NewProduct(body.name, body.price, body.description,
                               if !body.isAvailable.Undefined? then body.isAvailable else Int(1));
      match insert(record)
      case Returned(product) => CreateProductResult(Some(record), Created(product))
      case Threw(e) => CreateProductResult(Some(record), CreateFailed(e.message))
  }
}
