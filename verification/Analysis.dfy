/** The JSON document the backend produces and the frontend renders:
    `{match_score, reason, learning_plan: [{title, video, thumbnail}]}`. */
module Analysis {

  /** One learning-plan entry: a video title, its watch link and a thumbnail URL. */
  datatype Video = Video(title: string, video: string, thumbnail: string)

  /** The structured result of one analysis. */
  datatype AnalysisResponse = AnalysisResponse(matchScore: int, reason: string, learningPlan: seq<Video>)
}
