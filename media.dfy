/** The third-party media host, seen only through the calls the registries make. Every call
    may succeed or fail; which one happens is not decided here. The host's state is the live
    remote assets with their urls and contents, so that compensations and leaks are observable. */
module Media {
  import opened Types

  /** A value of the open transformation-parameter map (`Dict[str, Union[str, int]]`). */
  datatype Param = Text(s: string) | Int(n: int)

  type Params = map<string, Param>

  /** What an asset holds: an uploaded file, an image derived from the one at `source` by
      `params`, or a QR image encoding a url. */
  datatype Binary = File(name: string) | Derived(source: string, params: Params) | QrImage(encodedUrl: string)

  /** A live asset: where it is served and what it holds. */
  datatype Hosted = Hosted(url: string, data: Binary)

  /** What a storing call hands back: a url and an asset id, nothing at all, or the
      HTTP error the host client raised. */
  datatype Stored = Asset(url: string, publicId: PublicId) | NoData | Raised(error: HttpError)

  /** `qrcode.make`: the QR image that encodes `url`; the encoding itself is opaque. */
  function QrMake(url: string): Binary
  {
    QrImage(url)
  }

  class MediaHost {
    /** Assets currently held by the host, by id. */
    var assets: map<PublicId, Hosted>
    /** Every id below this one has been issued; new assets get fresh ids. */
    var nextId: nat

    ghost predicate Valid()
      reads this
    {
      forall a :: a in assets ==> a < nextId
    }

    constructor ()
      ensures Valid() && assets == map[]
    {
      assets, nextId := map[], 0;
    }

    /** Stores a binary under a fresh id, or stores nothing. */
    method Store(data: Binary) returns (r: Stored)
      requires Valid()
      modifies this
      ensures Valid()
      ensures r.Asset? ==> r.publicId !in old(assets) && assets == old(assets)[r.publicId := Hosted(r.url, data)]
      ensures !r.Asset? ==> assets == old(assets)
    {
      var choice: int := *;
      if choice == 0 {
        var url: string := *;
        r := Asset(url, nextId);
        assets := assets[nextId := Hosted(url, data)];
        nextId := nextId + 1;
      } else if choice == 1 {
        r := NoData;
      } else {
        var e: HttpError := *;
        r := Raised(e);
      }
    }

    /** `CloudService.upload_image`. */
    method UploadImage(userId: int, file: Binary) returns (r: Stored)
      requires Valid()
      modifies this
      ensures Valid()
      ensures r.Asset? ==> r.publicId !in old(assets) && assets == old(assets)[r.publicId := Hosted(r.url, file)]
      ensures !r.Asset? ==> assets == old(assets)
    {
      r := Store(file);
    }

    /** `upload_transformed_image`: derives a new asset from the source url and `params`. */
    method UploadTransformed(userId: int, sourceUrl: string, params: Params) returns (r: Stored)
      requires Valid()
      modifies this
      ensures Valid()
      ensures r.Asset? ==> r.publicId !in old(assets) && assets == old(assets)[r.publicId := Hosted(r.url, Derived(sourceUrl, params))]
      ensures !r.Asset? ==> assets == old(assets)
    {
      r := Store(Derived(sourceUrl, params));
    }

    /** `upload_qr_code`. */
    method UploadQrCode(userId: int, qr: Binary) returns (r: Stored)
      requires Valid()
      modifies this
      ensures Valid()
      ensures r.Asset? ==> r.publicId !in old(assets) && assets == old(assets)[r.publicId := Hosted(r.url, qr)]
      ensures !r.Asset? ==> assets == old(assets)
    {
      r := Store(qr);
    }

    /** `update_image_on_cloudinary`: re-derives an existing asset in place. It yields the new
        url, no url, or raises; the set of assets does not change. */
    method ExplicitTransform(publicId: PublicId, params: Params) returns (r: Result<Option<string>>)
    {
      var ok: bool := *;
      if ok {
        var url: Option<string> := *;
        r := Ok(url);
      } else {
        var e: HttpError := *;
        r := Err(e);
      }
    }

    /** `CloudService.delete_picture`: removes the asset, or raises and removes nothing. */
    method Destroy(publicId: PublicId) returns (r: Outcome)
      requires Valid()
      modifies this
      ensures Valid()
      ensures r.Pass? ==> assets == old(assets) - {publicId}
      ensures r.Fail? ==> assets == old(assets)
    {
      var ok: bool := *;
      if ok {
        assets := assets - {publicId};
        r := Pass;
      } else {
        var e: HttpError := *;
        r := Fail(e);
      }
    }

    /** `CloudService.delete_picture` given a nullable id: with no id nothing is removed, and
        whether the host client accepts the call is not decided here. */
    method DestroyOptional(publicId: Option<PublicId>) returns (r: Outcome)
      requires Valid()
      modifies this
      ensures Valid()
      ensures r.Pass? && publicId.Some? ==> assets == old(assets) - {publicId.value}
      ensures r.Fail? || publicId.None? ==> assets == old(assets)
    {
      if publicId.Some? {
        r := Destroy(publicId.value);
      } else {
        var ok: bool := *;
        if ok {
          r := Pass;
        } else {
          var e: HttpError := *;
          r := Fail(e);
        }
      }
    }
  }
}
