/**
 * Airtable rows as the scripts see them: an id and a mapping from field
 * name to value. Text fields hold strings, attachment fields hold lists of
 * attachment objects, each with an optional `url`.
 */
module Records {
  import opened Wrappers

  datatype Attachment = Attachment(url: Option<string>)

  datatype FieldValue = Str(text: string) | Attachments(items: seq<Attachment>)

  type Fields = map<string, FieldValue>

  datatype AirRecord = AirRecord(id: string, fields: Fields)

  /** Python truthiness of a field value: a non-empty string or a non-empty list. */
  predicate Truthy(v: FieldValue) {
    match v
    case Str(t) => t != ""
    case Attachments(items) => items != []
  }

  /** `key in fields and fields[key]`. */
  predicate HasValue(fields: Fields, key: string) {
    key in fields && Truthy(fields[key])
  }

  /** `fields.get(key, default)` for a text field. */
  function TextField(fields: Fields, key: string, default: string): string {
    if key in fields && fields[key].Str? then fields[key].text else default
  }

  const ProjectNameField := "Project Name"
  const SceneField := "scene"
  const ImagePromptField := "start_image_prompt"
  const VideoPromptField := "video_prompt"
  const StartImageField := "start_image"
  const SceneVideoField := "scene_video"
}
