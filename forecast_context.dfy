/**
 * The forecast session store: the shape of the forecasting service's answer,
 * the four independent state cells the provider holds, and the guard that
 * hands the store to a consumer or fails when no provider exists.
 */
module ForecastContext {

  /** Stands for the source's `T | null` and for optional record members. */
  datatype Option<+T> = None | Some(value: T)

  /** A failure carries the message of the error the source throws. */
  datatype Result<+T> = Ok(value: T) | Err(message: string)

  /** A `prophet` or `sarima` member: point forecasts with a prediction interval. */
  datatype BoundedSeries = BoundedSeries(
    forecast: seq<real>,
    lowerBound: seq<real>,
    upperBound: seq<real>,
    dates: seq<string>,
    methodName: string)

  /** The `moving_average` member: point forecasts without bounds. */
  datatype PointSeries = PointSeries(
    forecast: seq<real>,
    dates: seq<string>,
    methodName: string)

  /** `model_selected` is always present; each of the three series is optional. */
  datatype ForecastResult = ForecastResult(
    modelSelected: string,
    prophet: Option<BoundedSeries>,
    sarima: Option<BoundedSeries>,
    movingAverage: Option<PointSeries>)

  /**
   * Length agreement between forecasts, dates and bounds. The service is
   * expected to deliver it; nothing in the client checks it, so no operation
   * here requires or ensures it.
   */
  predicate WellShaped(r: ForecastResult) {
    (r.prophet.Some? ==> BoundedWellShaped(r.prophet.value)) &&
    (r.sarima.Some? ==> BoundedWellShaped(r.sarima.value)) &&
    (r.movingAverage.Some? ==>
       |r.movingAverage.value.forecast| == |r.movingAverage.value.dates|)
  }

  predicate BoundedWellShaped(b: BoundedSeries) {
    |b.forecast| == |b.dates| == |b.lowerBound| == |b.upperBound|
  }

  /** A browser `File`: its name and its bytes; its size is the byte count. */
  datatype File = File(name: string, content: seq<bv8>) {
    function Size(): nat { |content| }
  }

  /** A snapshot of the four cells the provider exposes. */
  datatype Session = Session(
    forecastType: Option<string>,
    uploadedFile: Option<File>,
    isUploadSuccessful: bool,
    forecastResult: Option<ForecastResult>)

  /** The values the provider's four `useState` calls start from. */
  const InitialSession: Session := Session(None, None, false, None)

  /** The provider: four mutable cells, each with a setter that replaces it. */
  class ForecastStore {
    var forecastType: Option<string>
    var uploadedFile: Option<File>
    var isUploadSuccessful: bool
    var forecastResult: Option<ForecastResult>

    function Snapshot(): (s: Session)
      reads this
    {
      Session(forecastType, uploadedFile, isUploadSuccessful, forecastResult)
    }

    constructor ()
      ensures Snapshot() == InitialSession
    {
      forecastType := None;
      uploadedFile := None;
      isUploadSuccessful := false;
      forecastResult := None;
    }

    method SetForecastType(t: Option<string>)
      modifies this
      ensures Snapshot() == old(Snapshot()).(forecastType := t)
    {
      forecastType := t;
    }

    method SetUploadedFile(f: Option<File>)
      modifies this
      ensures Snapshot() == old(Snapshot()).(uploadedFile := f)
    {
      uploadedFile := f;
    }

    method SetIsUploadSuccessful(b: bool)
      modifies this
      ensures Snapshot() == old(Snapshot()).(isUploadSuccessful := b)
    {
      isUploadSuccessful := b;
    }

    /** Overwrites the previous result as a whole; nothing is merged. */
    method SetForecastResult(r: Option<ForecastResult>)
      modifies this
      ensures Snapshot() == old(Snapshot()).(forecastResult := r)
    {
      forecastResult := r;
    }
  }

  const NoProviderMessage: string := "useForecast must be used within a ForecastProvider"

  /**
   * `useForecast`: the context value is null outside a provider, in which case
   * the hook throws; otherwise it returns the provider's store itself.
   */
  function UseForecast(context: Option<ForecastStore>): (r: Result<ForecastStore>)
    ensures r.Ok? <==> context.Some?
    ensures r.Ok? ==> r.value == context.value
    ensures r.Err? ==> r.message == NoProviderMessage
  {
    match context
    case None => Err(NoProviderMessage)
    case Some(store) => Ok(store)
  }
}
