/**
 * The retrieval index, seen only as the log of documents handed to
 * `LegalRAG.index_document`: chunking, embedding and similarity search are not modelled.
 * A run's writes to the index are the sequence of entries it produced, in order.
 */
module Rag {

  /** One `index_document(text, doc_id)` call. */
  datatype Entry = Entry(docId: string, text: string)
}
