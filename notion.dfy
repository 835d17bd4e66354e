/*
 * What the handlers send to the Notion API: typed property values for a new
 * database page, and the outbound calls themselves, recorded in the order a
 * handler makes them. The calls' answers are supplied from outside the model.
 */
module Notion {
  import opened Js

  /** An entry of a `files` property: `{ name, type: 'file_upload', file_upload: { id } }`. */
  datatype FileRef = FileUpload(name: string, id: string)

  /** The property shapes the handlers build. */
  datatype PropValue =
    | Title(content: Value)        // { title: [{ text: { content } }] }
    | EmailAddr(email: Value)      // { email }
    | PhoneNumber(phone: Value)    // { phone_number }
    | RichText(content: Value)     // { rich_text: [{ text: { content } }] }
    | Url(url: Value)              // { url }
    | Select(name: Value)          // { select: { name } }
    | Date(start: Value)           // { date: { start } }
    | Files(files: seq<FileRef>)   // { files: [...] }

  type Properties = map<string, PropValue>

  datatype Call =
    | CreateFileUpload(filename: string, fileSize: nat)             // POST /v1/file_uploads
    | SendFileUpload(uploadId: string, filename: string, size: nat) // POST /v1/file_uploads/{id}/send
    | CreatePage(databaseId: string, properties: Properties)        // notion.pages.create
}
