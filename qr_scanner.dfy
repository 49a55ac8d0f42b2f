/**
 * The QR scanner screen: a camera permission that is asked for on mount, and
 * a guard that lets one scan through until the user asks to scan again.
 */
module QrScanner {
  import opened Wrappers
  import opened Ui

  const ScanTitle := "Scan Complete"

  /** The prompt raised for a scanned code. */
  function ScanPrompt(codeType: string, data: string): Alert {
    Alert(ScanTitle, "Bar code of type " + codeType + " with data " + data + " has been scanned.")
  }

  class QrScannerScreen {
    /** `None` until the permission request answers. */
    var hasPermission: Option<bool>
    var scanned: bool
    /** The scan prompt, with its two buttons, is on screen. */
    var promptOpen: bool

    predicate Valid()
      reads this
    {
      promptOpen ==> scanned
    }

    /** The scanner is on screen and hands it codes. */
    predicate Scanning()
      reads this
    {
      hasPermission == Some(true) && !scanned
    }

    constructor ()
      ensures Valid()
      ensures hasPermission.None? && !scanned && !promptOpen
    {
      hasPermission, scanned, promptOpen := None, false, false;
    }

    /** The answer to the permission request made on mount. */
    method PermissionResolved(status: string)
      modifies this`hasPermission
      ensures hasPermission == Some(status == "granted")
    {
      hasPermission := Some(status == "granted");
    }

    /**
     * The camera read a code. Only the scanner, shown when permission was
     * granted and wired to `handleBarCodeScanned` only while not scanned,
     * can deliver one.
     */
    method CodeRead(codeType: string, data: string) returns (prompt: Option<Alert>)
      requires Valid()
      modifies this`scanned, this`promptOpen
      ensures Valid()
      ensures if old(Scanning())
        then scanned && promptOpen && prompt == Some(ScanPrompt(codeType, data))
        else scanned == old(scanned) && promptOpen == old(promptOpen) && prompt.None?
    {
      prompt := None;
      if hasPermission == Some(true) && !scanned {
        scanned, promptOpen := true, true;
        prompt := Some(ScanPrompt(codeType, data));
      }
    }

    /** The prompt's "Scan Again": handling resumes. */
    method ScanAgain()
      requires Valid() && promptOpen
      modifies this`scanned, this`promptOpen
      ensures Valid()
      ensures !scanned && !promptOpen
      ensures hasPermission == Some(true) ==> Scanning()
    {
      scanned, promptOpen := false, false;
    }

    /** The prompt's "Check Genuinity": back to the previous screen, still marked scanned. */
    method CheckGenuinity() returns (nav: Navigation)
      requires Valid() && promptOpen
      modifies this`promptOpen
      ensures Valid()
      ensures nav == Back && scanned && !promptOpen
    {
      promptOpen := false;
      nav := Back;
    }
  }
}
