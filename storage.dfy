/**
 * Cloud Storage as the archive jobs use it: fetching an object by its `gs://`
 * URL and uploading an archive. The calls are recorded and their replies come
 * from a fixed oracle, as for the Jira client.
 */
module Storage {

  type Bytes = seq<bv8>

  /** One archive member: its name and its content. ZIP encoding is not modelled. */
  type ZipEntry = (string, Bytes)

  datatype Request =
    | Fetch(url: string)
    | Upload(archive: seq<ZipEntry>, contentType: string, path: string)

  /** Whether the call returned, the fetched content, and the URL of an uploaded object. */
  datatype Reply = Reply(ok: bool, content: Bytes, url: string)

  class Bucket {
    const replies: nat -> Reply
    var sent: seq<Request>

    constructor (replies: nat -> Reply)
      ensures this.replies == replies && sent == []
    {
      this.replies := replies;
      sent := [];
    }

    method GetFile(url: string) returns (ok: bool, content: Bytes)
      modifies this
      ensures sent == old(sent) + [Fetch(url)]
      ensures ok == replies(|old(sent)|).ok && content == replies(|old(sent)|).content
    {
      var r := replies(|sent|);
      sent := sent + [Fetch(url)];
      ok, content := r.ok, r.content;
    }

    method UploadFile(archive: seq<ZipEntry>, contentType: string, path: string) returns (ok: bool, url: string)
      modifies this
      ensures sent == old(sent) + [Upload(archive, contentType, path)]
      ensures ok == replies(|old(sent)|).ok && url == replies(|old(sent)|).url
    {
      var r := replies(|sent|);
      sent := sent + [Upload(archive, contentType, path)];
      ok, url := r.ok, r.url;
    }
  }
}
