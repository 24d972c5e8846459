/**
 * The two stand-in helpers of the login window and the messages its workers
 * send: the path of the n-th QR-code image, the simulated "has the user
 * scanned the code yet" answer, and the two-variant Message enum.
 */
module QrCode {
  import opened Wrappers
  import opened Decimal

  /** What a worker sends to the view state (src/main.rs:38-41). */
  datatype Message =
    | UpdatetQRCodeImage(path: string)
    | ScanCodeFinished

  const QrCodePrefix: string := "./img/qrcode"
  const QrCodeSuffix: string := ".png"

  /** The image file of the i-th QR code: "./img/qrcode{i}.png". */
  function NewQrCodePath(i: int): (r: string)
  {
    QrCodePrefix + IntToString(i) + QrCodeSuffix
  }

  /** The counter a QR-code path was built from, if it has that shape. */
  function QrCodeCounter(p: string): (r: Option<int>)
  {
    if |p| >= |QrCodePrefix| + |QrCodeSuffix|
       && p[..|QrCodePrefix|] == QrCodePrefix
       && p[|p| - |QrCodeSuffix|..] == QrCodeSuffix
    then ParseInt(p[|QrCodePrefix|..|p| - |QrCodeSuffix|])
    else None
  }

  /** The counter can be read back from every path NewQrCodePath builds. */
  lemma QrCodeCounterOfPath(i: int)
    ensures QrCodeCounter(NewQrCodePath(i)) == Some(i)
  {
    var p := NewQrCodePath(i);
    assert p[..|QrCodePrefix|] == QrCodePrefix;
    assert p[|p| - |QrCodeSuffix|..] == QrCodeSuffix;
    assert p[|QrCodePrefix|..|p| - |QrCodeSuffix|] == IntToString(i);
    ParseIntToString(i);
  }

  /** Distinct counters give distinct image paths, and only they do. */
  lemma NewQrCodePathInjective(i: int, j: int)
    ensures NewQrCodePath(i) == NewQrCodePath(j) <==> i == j
  {
    QrCodeCounterOfPath(i);
    QrCodeCounterOfPath(j);
  }

  /** The simulated scan check: the code counts as scanned unless 0 <= i <= 3. */
  function UserScanCodeResult(i: int): (scanned: bool)
    ensures !scanned <==> 0 <= i <= 3
    ensures i < 0 ==> scanned
  {
    if 0 <= i <= 3 then false else true
  }
}
