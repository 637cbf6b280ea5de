/**
  The accept/reject decision of `handleFiles`
  (src/FileDropZone/FileDropZone.jsx): a single MP4 file is handed to the
  `setVideoFile` callback; anything else is only logged.
*/
module FileDropZone {

  /** A dropped or selected file; only its media type is inspected. */
  datatype VideoFile = VideoFile(name: string, mediaType: string)

  const Mp4: string := "video/mp4"
  const SingleFileMessage: string := "[Error] please upload a single file!"
  const Mp4OnlyMessage: string := "[Error] only MP4 files are supported!"

  /** What `handleFiles` does: call `setVideoFile` with a file, or log a message. */
  datatype Outcome = SetVideoFile(file: VideoFile) | Log(message: string)

  /**
    `handleFiles(files)` (lines 8-16). The list must not be empty: the code
    reads `files[0]` whenever there is at most one file. The file count is
    checked before the type, so several files are refused whatever their
    types.
  */
  function HandleFiles(files: seq<VideoFile>): (r: Outcome)
    requires |files| >= 1
    ensures r.SetVideoFile? <==> |files| == 1 && files[0].mediaType == Mp4
    ensures r.SetVideoFile? ==> r.file == files[0]
    ensures r.Log? ==> r.message == if |files| > 1 then SingleFileMessage else Mp4OnlyMessage
  {
    if |files| > 1 then Log(SingleFileMessage)
    else if files[0].mediaType != Mp4 then Log(Mp4OnlyMessage)
    else SetVideoFile(files[0])
  }

  /** Exactly the one-element lists of an MP4 file are accepted, and their file is passed on unchanged. */
  lemma AcceptsExactlyOneMp4(files: seq<VideoFile>, f: VideoFile)
    requires |files| >= 1
    ensures HandleFiles(files) == SetVideoFile(f) <==> files == [f] && f.mediaType == Mp4
  {
    if HandleFiles(files) == SetVideoFile(f) {
      assert files == [files[0]];
    }
  }

  /** Two MP4 files are still refused, as too many. */
  lemma TwoMp4FilesRefused(f: VideoFile, g: VideoFile)
    requires f.mediaType == Mp4 && g.mediaType == Mp4
    ensures HandleFiles([f, g]) == Log(SingleFileMessage)
  {
  }
}
