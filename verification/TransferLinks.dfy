/** The signed links a transfer is answered with, and the local routes they open. */
module TransferLinks {
  import opened Options
  import opened Encodings
  import opened SignedUrls
  import opened Transfers

  const UPLOAD := "upload"
  const DOWNLOAD := "download"

  /** The query of a signed local URL; its path names the action and the transfer. */
  datatype Link = Link(action: string, transferId: string, exp: string, sig: string)

  /** A transfer as answered: no link, one to upload, or one to download. */
  datatype Answer = Answer(transfer: Transfer, upload: Option<Link>, download: Option<Link>)

  function Sign(mac: Mac, action: string, transferId: string, expires: int): Link {
    Link(action, transferId, PrintInt(expires), Signature(mac, action, transferId, expires))
  }

  /** Get and List answer every transfer through this. */
  function Decorate(mac: Mac, t: Transfer, expires: int): Answer {
    var plain := t.(uploadURL := "", downloadURL := "");
    match t.status
    case Uploading => Answer(plain, Some(Sign(mac, UPLOAD, t.id, expires)), None)
    case Ready => Answer(plain, None, Some(Sign(mac, DOWNLOAD, t.id, expires)))
    case Downloading => Answer(plain, None, Some(Sign(mac, DOWNLOAD, t.id, expires)))
    case Completed => Answer(plain, None, Some(Sign(mac, DOWNLOAD, t.id, expires)))
    case Created => Answer(plain, None, None)
    case Failed => Answer(plain, None, None)
  }

  /** A route accepts a request for a transfer id with a link's expiry and signature. */
  predicate Opens(mac: Mac, now: int, route: string, id: string, link: Link) {
    Verify(mac, now, route, id, link.exp, link.sig).Accepted?
  }

  lemma SignedOpensOnly(mac: Mac, now: int, action: string, id: string, expires: int, route: string, id': string)
    requires forall m, n :: mac(m) == mac(n) ==> m == n
    requires MIN_INT64 <= expires <= MAX_INT64
    requires action in {UPLOAD, DOWNLOAD} && route in {UPLOAD, DOWNLOAD}
    ensures Opens(mac, now, route, id', Sign(mac, action, id, expires))
            <==> route == action && id' == id && now <= expires
  {
    IssuedUntilExpiry(mac, now, action, id, expires);
    if Opens(mac, now, route, id', Sign(mac, action, id, expires)) {
      NoOtherUse(mac, now, action, id, expires, route, id', PrintInt(expires));
    }
  }

  lemma AnswerShape(mac: Mac, t: Transfer, expires: int)
    ensures var a := Decorate(mac, t, expires);
            && Plain(a.transfer) && SameIdentity(a.transfer, t) && a.transfer.status == t.status
            && a.upload == (if t.status.Uploading? then Some(Sign(mac, UPLOAD, t.id, expires)) else None)
            && a.download == (if Downloadable(t.status) then Some(Sign(mac, DOWNLOAD, t.id, expires)) else None)
  {
  }

  /**
   A transfer is answered with an upload link exactly while it is uploading and with a download link
   exactly once it can be downloaded, never both; and, until it expires, such a link opens its own
   route for its own transfer and nothing else.
   */
  lemma AnswerOpensOneRoute(mac: Mac, t: Transfer, expires: int, now: int, route: string, id: string)
    requires forall m, n :: mac(m) == mac(n) ==> m == n
    requires MIN_INT64 <= expires <= MAX_INT64 && route in {UPLOAD, DOWNLOAD}
    ensures var a := Decorate(mac, t, expires);
            && Plain(a.transfer) && SameIdentity(a.transfer, t) && a.transfer.status == t.status
            && (a.upload.Some? <==> t.status.Uploading?)
            && (a.download.Some? <==> Downloadable(t.status))
            && (a.upload.Some? ==>
                  (Opens(mac, now, route, id, a.upload.value) <==> route == UPLOAD && id == t.id && now <= expires))
            && (a.download.Some? ==>
                  (Opens(mac, now, route, id, a.download.value) <==> route == DOWNLOAD && id == t.id && now <= expires))
  {
    AnswerShape(mac, t, expires);
    SignedOpensOnly(mac, now, UPLOAD, t.id, expires, route, id);
    SignedOpensOnly(mac, now, DOWNLOAD, t.id, expires, route, id);
  }
}
