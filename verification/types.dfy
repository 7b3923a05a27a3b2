/** The lifecycle stages shared by the application and its components
    (types.ts:7-14). The stage reached after a crop is confirmed is `Uploading`. */
module Types {

  datatype ProcessingStatus = Idle | Uploading | Cropping | Processing | Completed | Failed
}
