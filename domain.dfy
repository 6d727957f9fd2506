/** The values the mapper works with: events, self-metric diagnostics and its collaborators. */
module Domain {
  import opened Wrappers

  /** The Java exception classes whose names can tag an `invalid_lines` self-metric, plus the one `buildEvent` raises. */
  datatype JavaException =
    | IllegalArgument           // isNullOrEmpty on an empty string
    | InvalidStatsDLine         // validLine: no ':' or an empty name
    | MalformedMetricComponent  // validLineMetadata: component count outside [2,4]
    | IllegalState              // Collectors.toMap: two tags with the same key
    | UnknownMetricType         // buildEvent: a type token that is not a MetricType

  /** One self-metric sent to the Statful client. */
  datatype Diagnostic =
    | MalformedValue                  // gauge metadata_errors, tag malformed_value
    | IllegalMetricType               // gauge metadata_errors, tag illegal_metric_type
    | InvalidSampleFactor             // gauge metadata_errors, tag invalid_sample_factor
    | UnknownMetadataComponentType    // gauge metadata_errors, tag unknown_metadata_component_type
    | IllegalEvent                    // gauge metadata_errors, tag illegal_event
    | ValidLines                      // gauge valid_lines
    | InvalidLines(exception: JavaException)  // gauge invalid_lines, tagged with the exception class
    | BatchError                      // counter batch_error

  /** A DefaultEvent: name, metric type token, value, sample rate and tags. */
  datatype Event = Event(
    name: string,
    metricType: string,
    value: real,
    sampleRate: real,
    tags: map<string, string>)

  /**
   * What the mapper takes from the platform: the type tokens of the MetricType
   * enumeration and Float.parseFloat (None when it throws NumberFormatException).
   */
  datatype Platform = Platform(knownTypes: set<string>, parseFloat: string -> Option<real>)

  /** The pluggable MappingProcessor; None stands for a call that throws. */
  datatype Processor = Processor(
    processable: string -> Option<bool>,
    process: Event -> Option<Event>)

  /** The events produced and the self-metrics recorded, in the order they are sent. */
  datatype Mapped = Mapped(events: seq<Event>, diags: seq<Diagnostic>)

  /** What reaches the client: everything when one is set, nothing when it is null. */
  function Sent(client: bool, diags: seq<Diagnostic>): seq<Diagnostic>
  {
    if client then diags else []
  }

  /** What reaches the client of two runs is what reaches it of each, in order. */
  lemma SentAppend(before: seq<Diagnostic>, client: bool, a: seq<Diagnostic>, b: seq<Diagnostic>)
    ensures before + Sent(client, a) + Sent(client, b) == before + Sent(client, a + b)
  {
  }
}
