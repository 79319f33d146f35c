/** Values shared by the HTTP handlers: optional request and metadata fields,
    and the error answers the handlers return with their HTTP status. */
module Api {

  /** A field that may be absent from a JSON body or from yt-dlp's info dict. */
  datatype Option<+T> = None | Some(value: T) {
    /** `dict.get(key, default)` */
    function GetOr(default: T): T {
      match this
      case Some(v) => v
      case None => default
    }
  }

  /** Every error answer of `/download` and `/cut`. The two `Raised` cases are
      the handlers' catch-all `except Exception`, which reports `str(e)`. */
  datatype ApiError =
    | MissingUrl
    | VideoTooLong
    | VideoTooShort
    | DownloadMissing
    | DownloadRaised(detail: string)
    | MissingVideoId
    | InputNotFound
    | FfmpegUnavailable
    | NoSegments
    | CutRaised(detail: string)
  {
    /** The HTTP status sent with the error body: 400 for a bad request or a
        refused duration, 404 for a missing input video, 500 otherwise. */
    function Status(): (code: int)
      ensures code == 400 <==> MissingUrl? || VideoTooLong? || VideoTooShort? || MissingVideoId?
      ensures code == 404 <==> InputNotFound?
      ensures code == 400 || code == 404 || code == 500
    {
      match this
      case MissingUrl | VideoTooLong | VideoTooShort | MissingVideoId => 400
      case InputNotFound => 404
      case DownloadMissing | DownloadRaised(_) | FfmpegUnavailable | NoSegments | CutRaised(_) => 500
    }

    /** The `error` field of the JSON body; only a caught exception's message
        starts with "Erreur de ". */
    function Message(): (msg: string)
      ensures DownloadRaised? || CutRaised? <==> "Erreur de " <= msg
    {
      var msg := match this
        case MissingUrl => "URL YouTube manquante"
        case VideoTooLong => "Vidéo trop longue (max 10min)"
        case VideoTooShort => "Vidéo trop courte (min 5s)"
        case DownloadMissing => "Échec du téléchargement"
        case DownloadRaised(d) => "Erreur de téléchargement: " + d
        case MissingVideoId => "video_id manquant"
        case InputNotFound => "Fichier vidéo introuvable"
        case FfmpegUnavailable => "FFmpeg non disponible"
        case NoSegments => "Aucun segment créé"
        case CutRaised(d) => "Erreur de découpage: " + d;
      assert msg[0] == 'E' <==> DownloadRaised? || CutRaised?;
      msg
    }
  }

  /** The `error` text alone tells which error occurred. */
  lemma MessageIdentifiesError(e1: ApiError, e2: ApiError)
    ensures e1.Message() == e2.Message() ==> e1 == e2
  {
    if e1.Message() == e2.Message() {
      if e1.DownloadRaised? && e2.DownloadRaised? {
        var p := "Erreur de téléchargement: ";
        assert e1.Message() == p + e1.detail && e2.Message() == p + e2.detail;
        assert e1.Message()[|p|..] == e1.detail;
        assert e2.Message()[|p|..] == e2.detail;
      } else if e1.CutRaised? && e2.CutRaised? {
        var p := "Erreur de découpage: ";
        assert e1.Message() == p + e1.detail && e2.Message() == p + e2.detail;
        assert e1.Message()[|p|..] == e1.detail;
        assert e2.Message()[|p|..] == e2.detail;
      } else {
        // the messages already differ in length or in an early character
        assert |e1.Message()| == |e2.Message()| && e1.Message()[0] == e2.Message()[0];
        assert e1.Message()[10] == e2.Message()[10];
      }
    }
  }
}
