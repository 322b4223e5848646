/**
 * The lead store: the JSON file `data/leads.json`, read by both the subscribe
 * and the export endpoint. File-system access and JSON parsing are not
 * modelled; the file is a value that says what `JSON.parse` made of it.
 */
module Store {
  import opened Wrappers

  /** One captured lead. Each property may be missing from the stored JSON. */
  datatype Lead = Lead(email: Option<string>, createdAt: Option<string>, ua: Option<string>)

  /** What reading and parsing the lead file produced. */
  datatype StoreFile =
    | Missing               // the file does not exist (or cannot be read)
    | Unparsable            // JSON.parse threw
    | NotArray              // the JSON value is not an array
    | Records(leads: seq<Lead>)

  /** The record list a reader works with: the parsed array, else the empty list. */
  function ReadLeads(f: StoreFile): (r: seq<Lead>)
    ensures f.Records? ==> r == f.leads
    ensures r != [] ==> f.Records?
  {
    if f.Records? then f.leads else []
  }
}
