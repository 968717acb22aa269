/**
 * The two persisted stores the pipeline touches: the synced settings
 * (`openaiApiKey`, `modelName`) and the local `analyses` list. The platform's
 * asynchronous get/set calls become field reads and writes.
 */
module Storage {
  import opened Wrappers
  import opened Analysis

  /** `chrome.storage.sync`: each key is absent until the settings form saves it. */
  class Settings {
    var apiKey: Option<string>
    var modelName: Option<string>

    constructor (apiKey: Option<string>, modelName: Option<string>)
      ensures this.apiKey == apiKey && this.modelName == modelName
    {
      this.apiKey := apiKey;
      this.modelName := modelName;
    }
  }

  /** `chrome.storage.local`, key `analyses`: absent until the first save. */
  class RecordStore {
    var analyses: Option<seq<Record>>

    /** The list a reader sees: the stored one, or `[]` when none is stored. */
    function Contents(): seq<Record>
      reads this
    {
      match analyses
      case Some(records) => records
      case None => []
    }

    constructor ()
      ensures analyses == None && Contents() == []
    {
      analyses := None;
    }

    /** `chrome.storage.local.get({analyses: []})`. */
    method List() returns (records: seq<Record>)
      ensures analyses.None? ==> records == []
      ensures analyses.Some? ==> records == analyses.value
    {
      records := if analyses.Some? then analyses.value else [];
    }

    /** Read the list, push the record, write the whole list back: the new
        record is last and the earlier ones keep their values and order. */
    method Append(record: Record)
      modifies this
      ensures analyses == Some(old(Contents()) + [record])
      ensures |Contents()| == |old(Contents())| + 1
      ensures Contents()[|old(Contents())|] == record
      ensures Contents()[..|old(Contents())|] == old(Contents())
    {
      var records := List();
      records := records + [record];
      analyses := Some(records);
    }
  }
}
