/** The client's data model (app/types.ts). A time field is declared a string,
    but the results screen also accepts a JSON number of seconds, so it is
    either. The
    source field `label` is called `labelText` (label is a Dafny keyword). */
module ClientTypes {
  datatype TimeField = Seconds(seconds: real) | Text(text: string)

  datatype BirdDetection = BirdDetection(
    startTime: TimeField,
    endTime: TimeField,
    scientificName: string,
    commonName: string,
    confidence: real,
    labelText: string)

  datatype AnalysisSummary = AnalysisSummary(
    totalDetections: int,
    speciesCount: int,
    audioDuration: TimeField)

  datatype AnalysisData = AnalysisData(
    fileName: string,
    analysisTime: real,
    detections: seq<BirdDetection>,
    summary: AnalysisSummary)
}
