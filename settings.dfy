/** The settings page: one text field for the recognition endpoint, saved to
    local storage only when it parses as a URL, and a snackbar reporting the
    result. URL parsing (`new URL(...)`, the WHATWG URL Standard's basic URL
    parser) is the page's `isValidUrl`, a fixed but otherwise unknown
    function of the text. */
module Settings {
  import opened Records
  import WebStorage

  datatype Severity = Success | Error

  const SavedMessage := "Settings saved successfully"
  const InvalidUrlMessage := "Please enter a valid URL"

  class SettingsPage {
    var apiEndpoint: string
    var openSnackbar: bool
    var snackbarMessage: string
    var snackbarSeverity: Severity
    const store: WebStorage.LocalStorage
    const isValidUrl: string -> bool

    /** The initial state followed by the mount effect: the field shows the
        stored endpoint when one is stored and non-empty, '' otherwise. */
    constructor (store: WebStorage.LocalStorage, isValidUrl: string -> bool)
      ensures this.store == store && this.isValidUrl == isValidUrl
      ensures apiEndpoint == if Truthy(store.apiEndpoint) then store.apiEndpoint.value else ""
      ensures !openSnackbar && snackbarMessage == "" && snackbarSeverity == Success
    {
      this.store := store;
      this.isValidUrl := isValidUrl;
      apiEndpoint := "";
      openSnackbar, snackbarMessage, snackbarSeverity := false, "", Success;
      new;
      var savedEndpoint := store.apiEndpoint;
      if Truthy(savedEndpoint) {
        apiEndpoint := savedEndpoint.value;
      }
    }

    /** The text field's change handler. */
    method EditEndpoint(text: string)
      modifies this`apiEndpoint
      ensures apiEndpoint == text
    {
      apiEndpoint := text;
    }

    /** `handleSaveSettings`: a valid URL is stored verbatim and reported as
        saved; an invalid one leaves the stored endpoint as it was and is
        reported as an error. Either way the snackbar opens. */
    method HandleSaveSettings()
      modifies store`apiEndpoint, this`openSnackbar, this`snackbarMessage, this`snackbarSeverity
      ensures openSnackbar
      ensures isValidUrl(apiEndpoint) ==>
        && store.apiEndpoint == Some(apiEndpoint)
        && snackbarSeverity == Success && snackbarMessage == SavedMessage
      ensures !isValidUrl(apiEndpoint) ==>
        && store.apiEndpoint == old(store.apiEndpoint)
        && snackbarSeverity == Error && snackbarMessage == InvalidUrlMessage
    {
      if isValidUrl(apiEndpoint) {
        store.SetApiEndpoint(apiEndpoint);
        snackbarSeverity := Success;
        snackbarMessage := SavedMessage;
        openSnackbar := true;
      } else {
        snackbarSeverity := Error;
        snackbarMessage := InvalidUrlMessage;
        openSnackbar := true;
      }
    }

    /** `handleCloseSnackbar`: closes the snackbar and nothing else. */
    method HandleCloseSnackbar()
      modifies this`openSnackbar
      ensures !openSnackbar
    {
      openSnackbar := false;
    }
  }
}
