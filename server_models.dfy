/** The server's response model (server/app/models.py). The source field
    `label` is called `labelText` (label is a Dafny keyword). */
module ServerModels {
  import opened Wrappers

  datatype Detection = Detection(
    startTime: string,
    endTime: string,
    scientificName: string,
    commonName: string,
    confidence: real,
    labelText: string)

  datatype Summary = Summary(
    totalDetections: nat,
    speciesCount: nat,
    audioDuration: string)

  datatype AnalysisData = AnalysisData(
    fileName: string,
    analysisTime: real,
    detections: seq<Detection>,
    summary: Summary)

  /** `AnalysisResponse`; its optional `error` dictionary is never filled by
      the modelled route and is left out. */
  datatype AnalysisResponse = AnalysisResponse(success: bool, data: Option<AnalysisData>)
}
