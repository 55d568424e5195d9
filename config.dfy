/** The configuration file's shape: the board to sync, where new cards go, and the course-to-label mappings. */
module Config {
  import opened Urls

  datatype Config = Config(trello: TrelloSettings, canvas: CanvasSettings, mapping: seq<Mapping>)

  datatype TrelloSettings = TrelloSettings(boardId: string, addToList: string)

  datatype CanvasSettings = CanvasSettings(graphqlEndpoint: Url)

  /** One course whose assignments become cards carrying one board label. */
  datatype Mapping = Mapping(canvasCourseId: string, trelloLabelName: string)
}
