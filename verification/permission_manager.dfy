/**
 * `PermissionManager.isPermissionGranted`: whether the result of a storage
 * permission request says the permission was granted. The Kotlin and Java
 * twins evaluate the same short-circuit conjunction.
 */
module PermissionManager {

  /** `Constants.RequestCodes.PERMISSION_READ_STORAGE`. */
  const PERMISSION_READ_STORAGE := 100

  /** Android's `PackageManager.PERMISSION_GRANTED`. */
  const PERMISSION_GRANTED := 0

  /** Android's `PackageManager.PERMISSION_DENIED`. */
  const PERMISSION_DENIED := -1

  /**
   * The request code must be the storage request's, the results must be
   * non-empty, and the first result must be a grant; the first entry is read
   * only after the emptiness test.
   */
  function IsPermissionGranted(requestCode: int, grantResults: seq<int>): (granted: bool)
    ensures granted ==> requestCode == PERMISSION_READ_STORAGE
    ensures granted ==> |grantResults| > 0 && grantResults[0] == PERMISSION_GRANTED
    ensures requestCode == PERMISSION_READ_STORAGE && |grantResults| > 0 && grantResults[0] == PERMISSION_GRANTED ==> granted
  {
    requestCode == PERMISSION_READ_STORAGE && |grantResults| > 0 && grantResults[0] == PERMISSION_GRANTED
  }

  /** Only the first result is consulted: results that agree on their first entry give the same answer. */
  lemma OnlyFirstResultMatters(requestCode: int, a: seq<int>, b: seq<int>)
    requires |a| > 0 && |b| > 0 && a[0] == b[0]
    ensures IsPermissionGranted(requestCode, a) == IsPermissionGranted(requestCode, b)
  {
  }

  /** An empty result array is never a grant, whatever the request code. */
  lemma EmptyResultsDenied(requestCode: int)
    ensures !IsPermissionGranted(requestCode, [])
  {
  }

  /** A request code other than the storage request's is never a grant, whatever the results. */
  lemma WrongCodeDenied(requestCode: int, grantResults: seq<int>)
    requires requestCode != PERMISSION_READ_STORAGE
    ensures !IsPermissionGranted(requestCode, grantResults)
  {
  }

  /** The unit-test cases: a granted storage request, a denied one, and a grant for another code. */
  lemma UnitTestCases()
    ensures IsPermissionGranted(100, [PERMISSION_GRANTED])
    ensures !IsPermissionGranted(100, [PERMISSION_DENIED])
    ensures !IsPermissionGranted(200, [PERMISSION_GRANTED])
  {
  }
}
